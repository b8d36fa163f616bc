/**
 * The hook and script injector of `builders/lando-v4.js`: `addHookFile`'s
 * normalisation of inline script text, its generated file names and its
 * stage-dependent placement, and the context entries of `addLSF`,
 * `addLashRC` and `#setupBoot`.
 */
module Hooks {
  import opened Base
  import opened BuildGroups

  // ---------------------------------------------------------------------------
  // Inline script normalisation
  // ---------------------------------------------------------------------------

  /** A character matched by JavaScript's `\s`. */
  predicate IsSpace(c: char) {
    c in {' ', '\t', '\n', '\r', '\U{000B}', '\U{000C}', '\U{00A0}', '\U{1680}', '\U{2028}',
          '\U{2029}', '\U{202F}', '\U{205F}', '\U{3000}', '\U{FEFF}'}
    || ('\U{2000}' <= c <= '\U{200A}')
  }

  /** `lines.findIndex(line => line.length > 0)`, with no index for -1. */
  function FirstNonEmpty(lines: seq<string>): (r: Option<nat>)
    ensures r.Some? ==> r.value < |lines| && lines[r.value] != ""
    ensures r.Some? ==> forall i :: 0 <= i < r.value ==> lines[i] == ""
    ensures r.None? ==> forall i :: 0 <= i < |lines| ==> lines[i] == ""
    decreases |lines|
  {
    if lines == [] then None
    else if lines[0] != "" then Some(0)
    else match FirstNonEmpty(lines[1..])
      case None => None
      case Some(i) => Some(i + 1)
  }

  /** `line.match(/^\s*\/)[0].length`: the width of the leading whitespace run. */
  function LeadingSpace(line: string): (n: nat)
    ensures n <= |line|
    ensures forall i :: 0 <= i < n ==> IsSpace(line[i])
    ensures n < |line| ==> !IsSpace(line[n])
    decreases |line|
  {
    if line == [] || !IsSpace(line[0]) then 0 else 1 + LeadingSpace(line[1..])
  }

  /** `line.slice(k)`. */
  function DropPrefix(line: string, k: nat): string {
    if |line| <= k then "" else line[k..]
  }

  /** The error `addHookFile` throws when inline script text has no non-empty line. */
  const NoContentError := Failure("Cannot read properties of undefined (reading 'match')", None)

  /**
   * `addHookFile`'s treatment of the lines of inline script text: drop the empty
   * lines at the top, then cut from every line as many characters as the first
   * non-empty line has leading whitespace.
   */
  function Dedent(lines: seq<string>): Result<seq<string>> {
    match FirstNonEmpty(lines)
    case None => Err(NoContentError)
    case Some(start) =>
      var rest := lines[start..];
      var k := LeadingSpace(rest[0]);
      Ok(seq(|rest|, i requires 0 <= i < |rest| => DropPrefix(rest[i], k)))
  }

  /**
   * Dedent fails exactly when no line is non-empty; otherwise it keeps every line
   * from the first non-empty one on, each losing the first line's indentation
   * width, and the first line it returns does not start with whitespace.
   */
  lemma DedentSpec(lines: seq<string>)
    ensures Dedent(lines).Err? <==> forall i :: 0 <= i < |lines| ==> lines[i] == ""
    ensures Dedent(lines).Err? ==> Dedent(lines).error == NoContentError
    ensures Dedent(lines).Ok? ==>
      var start := FirstNonEmpty(lines).value;
      var k := LeadingSpace(lines[start]);
      var r := Dedent(lines).value;
      && (forall i :: 0 <= i < start ==> lines[i] == "")
      && lines[start] != ""
      && |r| == |lines| - start
      && (forall i :: 0 <= i < |r| ==> r[i] == DropPrefix(lines[start + i], k))
      && (r[0] == "" || !IsSpace(r[0][0]))
  {
    if Dedent(lines).Ok? {
      var start := FirstNonEmpty(lines).value;
      var k := LeadingSpace(lines[start]);
      var r := Dedent(lines).value;
      assert r[0] == DropPrefix(lines[start], k);
      if r[0] != "" {
        assert r[0][0] == lines[start][k];
      }
    }
  }

  /** An indentation followed by text that does not start with whitespace measures as the indentation. */
  lemma {:induction false} LeadingSpaceOfIndented(indent: string, body: string)
    requires forall i :: 0 <= i < |indent| ==> IsSpace(indent[i])
    requires body == [] || !IsSpace(body[0])
    ensures LeadingSpace(indent + body) == |indent|
    decreases |indent|
  {
    if indent != [] {
      assert (indent + body)[1..] == indent[1..] + body;
      LeadingSpaceOfIndented(indent[1..], body);
    } else {
      assert indent + body == body;
    }
  }

  /**
   * A script whose lines, after some empty ones, all carry one common indentation
   * comes out with that indentation removed and nothing else changed.
   */
  lemma DedentRemovesCommonIndent(blank: nat, indent: string, bodies: seq<string>)
    requires forall i :: 0 <= i < |indent| ==> IsSpace(indent[i])
    requires |bodies| > 0 && bodies[0] != [] && !IsSpace(bodies[0][0])
    ensures
      var lines := seq(blank, i => "") + seq(|bodies|, i requires 0 <= i < |bodies| => indent + bodies[i]);
      Dedent(lines) == Ok(bodies)
  {
    var lines := seq(blank, i => "") + seq(|bodies|, i requires 0 <= i < |bodies| => indent + bodies[i]);
    FirstNonEmptyAfterBlanks(lines, blank);
    LeadingSpaceOfIndented(indent, bodies[0]);
    var rest := lines[blank..];
    assert rest[0] == indent + bodies[0];
    var k := LeadingSpace(rest[0]);
    assert k == |indent|;
    var r := seq(|rest|, i requires 0 <= i < |rest| => DropPrefix(rest[i], k));
    assert Dedent(lines) == Ok(r);
    assert |r| == |bodies|;
    forall i | 0 <= i < |bodies| ensures r[i] == bodies[i] {
      assert rest[i] == indent + bodies[i];
      assert (indent + bodies[i])[|indent|..] == bodies[i];
    }
    assert r == bodies;
  }

  lemma FirstNonEmptyAfterBlanks(lines: seq<string>, blank: nat)
    requires blank < |lines| && lines[blank] != ""
    requires forall i :: 0 <= i < blank ==> lines[i] == ""
    ensures FirstNonEmpty(lines) == Some(blank)
  {
  }

  /** The file contents `addHookFile` writes for inline script text. */
  function ScriptContents(content: string): Result<string> {
    match Dedent(Split(content, '\n'))
    case Err(e) => Err(e)
    case Ok(lines) => Ok(JoinWith(lines, "\n"))
  }

  // ---------------------------------------------------------------------------
  // Naming and placement
  // ---------------------------------------------------------------------------

  /** The generated script name: `<priority>-<id>.sh` for a truthy id, else `<priority>-<stage>-<hook>.sh`. */
  function HookFileName(id: Option<string>, hook: string, stage: string, priority: string): string {
    if Truthy(id) then priority + "-" + id.value + ".sh"
    else priority + "-" + stage + "-" + hook + ".sh"
  }

  /** Where `addHookFile` puts a hook file. */
  datatype Placement =
    | BuildContext(entry: ContextEntry)   // baked into the image
    | RuntimeMount(volume: string)        // mounted into the running container
    | Nowhere

  /** The placement of `file` for a hook of the given stage. */
  function HookPlacement(file: string, hook: string, stage: string, priority: string): Placement {
    if stage == "image" then
      BuildContext(ContextEntry(
        file + ":/etc/lando/build/image/" + hook + ".d/" + priority + "-" + Basename(file),
        Some(hook + "-1000-before")))
    else if stage == "app" then
      RuntimeMount(file + ":/etc/lando/build/app/" + hook + ".d/" + Basename(file))
    else Nowhere
  }

  /**
   * A script generated into the build context lands under the stage's per-hook
   * directory with its generated name: with the priority in front for an image
   * hook, tagged to run before the hook runner, as a mount for an app hook, and
   * nowhere for any other stage.
   */
  lemma GeneratedHookPlacement(context: string, id: Option<string>, hook: string, stage: string, priority: string)
    requires '/' !in priority && '/' !in hook && '/' !in stage
    requires id.Some? ==> '/' !in id.value
    ensures
      var name := HookFileName(id, hook, stage, priority);
      var file := PathJoin(context, name);
      HookPlacement(file, hook, stage, priority) ==
        if stage == "image" then
          BuildContext(ContextEntry(file + ":/etc/lando/build/image/" + hook + ".d/" + priority + "-" + name,
                                    Some(hook + "-1000-before")))
        else if stage == "app" then RuntimeMount(file + ":/etc/lando/build/app/" + hook + ".d/" + name)
        else Nowhere
  {
    var name := HookFileName(id, hook, stage, priority);
    assert '/' !in name by {
      NoSlashConcat([priority, "-", if Truthy(id) then id.value else stage + "-" + hook, ".sh"]);
      if !Truthy(id) {
        NoSlashConcat([stage, "-", hook]);
      }
      if Truthy(id) {
        assert name == priority + "-" + id.value + ".sh";
      } else {
        assert name == priority + "-" + (stage + "-" + hook) + ".sh";
      }
    }
    BasenameOfJoin(context, name);
  }

  /** A concatenation of `/`-free strings is `/`-free. */
  lemma {:induction false} NoSlashConcat(parts: seq<string>)
    requires forall i :: 0 <= i < |parts| ==> '/' !in parts[i]
    ensures '/' !in Concat(parts)
    decreases |parts|
  {
    if parts != [] {
      NoSlashConcat(parts[1..]);
    }
  }

  function Concat(parts: seq<string>): string
    decreases |parts|
  {
    if parts == [] then "" else parts[0] + Concat(parts[1..])
  }

  // ---------------------------------------------------------------------------
  // addLSF, addLashRC, #setupBoot
  // ---------------------------------------------------------------------------

  /** `addLSF(source, dest, {context})`: copy `source` to `/etc/lando/<dest>`, `dest` defaulting to the basename. */
  function LsfEntry(source: string, dest: Option<string>, context: Option<string>): ContextEntry {
    ContextEntry(source + ":/etc/lando/" + dest.GetOr(Basename(source)), Some(context.GetOr("context")))
  }

  /** `addLashRC(file, {priority})`: copy `file` to `/etc/lando/lash.d/<priority>-<basename>`. */
  function LashRcEntry(file: string, priority: Option<string>): ContextEntry {
    ContextEntry(file + ":/etc/lando/lash.d/" + priority.GetOr("100") + "-" + Basename(file), None)
  }

  /** A script `name` in `dir` is copied to `/etc/lando/<name>` unless a destination is given. */
  lemma LsfDestination(dir: string, name: string, dest: Option<string>)
    requires '/' !in name
    ensures LsfEntry(PathJoin(dir, name), dest, None) ==
      ContextEntry(PathJoin(dir, name) + ":/etc/lando/" + dest.GetOr(name), Some("context"))
  {
    BasenameOfJoin(dir, name);
  }

  /** The scripts `#setupBoot` copies with `addLSF`, each with its explicit destination if any. */
  function BootScripts(): seq<(string, Option<string>)> {
    [("boot.sh", None), ("exec.sh", None), ("run-hooks.sh", None), ("start.sh", None),
     ("landorc.sh", Some("landorc")), ("utils.sh", None), ("environment.sh", Some("environment")),
     ("install-updates.sh", None), ("install-bash.sh", None)]
  }

  /** The context entries `#setupBoot` adds, `scriptsDir` being the package's `scripts` directory. */
  function BootContexts(scriptsDir: string): seq<ContextEntry> {
    [ContextEntry(PathJoin(scriptsDir, "lash.sh") + ":/bin/lash", None)]
    + seq(|BootScripts()|, i requires 0 <= i < |BootScripts()| =>
        LsfEntry(PathJoin(scriptsDir, BootScripts()[i].0), BootScripts()[i].1, None))
  }

  /** The boot contexts grow one `addLSF` entry per script. */
  lemma BootContextsStep(scriptsDir: string, i: nat)
    requires i < |BootScripts()|
    ensures BootContexts(scriptsDir)[..i + 2] ==
      BootContexts(scriptsDir)[..i + 1] + [LsfEntry(PathJoin(scriptsDir, BootScripts()[i].0), BootScripts()[i].1, None)]
  {
    assert BootContexts(scriptsDir)[..i + 2] == BootContexts(scriptsDir)[..i + 1] + [BootContexts(scriptsDir)[i + 1]];
  }

  /** No boot script name contains a `/`. */
  lemma BootScriptNamesPlain()
    ensures forall i :: 0 <= i < |BootScripts()| ==> '/' !in BootScripts()[i].0
  {
    var names := BootScripts();
    forall i | 0 <= i < |names| ensures '/' !in names[i].0 {
      assert names[i].0 in ["boot.sh", "exec.sh", "run-hooks.sh", "start.sh", "landorc.sh",
                            "utils.sh", "environment.sh", "install-updates.sh", "install-bash.sh"];
    }
  }

  /**
   * `#setupBoot` puts `lash.sh` at `/bin/lash` and every other script at
   * `/etc/lando/<name>`, or at its explicit destination (`landorc.sh` and
   * `environment.sh` lose their extension); all but the first go to the
   * `context` tag.
   */
  lemma BootContextTargets(scriptsDir: string)
    ensures |BootContexts(scriptsDir)| == 1 + |BootScripts()|
    ensures BootContexts(scriptsDir)[0] == ContextEntry(PathJoin(scriptsDir, "lash.sh") + ":/bin/lash", None)
    ensures forall i :: 0 <= i < |BootScripts()| ==>
      var (name, dest) := BootScripts()[i];
      BootContexts(scriptsDir)[i + 1] ==
        ContextEntry(PathJoin(scriptsDir, name) + ":/etc/lando/" + dest.GetOr(name), Some("context"))
  {
    var names := BootScripts();
    BootScriptNamesPlain();
    forall i | 0 <= i < |names|
      ensures BootContexts(scriptsDir)[i + 1] ==
        ContextEntry(PathJoin(scriptsDir, names[i].0) + ":/etc/lando/" + names[i].1.GetOr(names[i].0), Some("context"))
    {
      LsfDestination(scriptsDir, names[i].0, names[i].1);
    }
  }
}
