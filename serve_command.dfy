/**
 * The `serve` command: which targets `--only` selects, when the project
 * checks before serving can be skipped, and which targets are served.
 */
module ServeCommand {
  import opened Wrappers
  import opened Strs
  import opened Lists

  const ValidEmulators: seq<string> := ["database", "firestore", "functions", "hosting"]
  const ValidTargets: seq<string> := ["hosting", "functions"]
  const RequiresAuth: seq<string> := ["hosting", "functions"]

  /** An absent or empty `--only` value, which JavaScript treats as false. */
  predicate Falsy(only: Option<string>)
  {
    only.None? || only.value == ""
  }

  /** The part before the first ":" of each entry. */
  function Heads(entries: seq<string>): (ns: seq<string>)
    ensures |ns| == |entries|
    ensures forall i :: 0 <= i < |entries| ==> ns[i] == Split(entries[i], ':')[0]
  {
    if entries == [] then [] else [Split(entries[0], ':')[0]] + Heads(entries[1..])
  }

  /** The names an `--only` value lists: `only.split(",").map(opt => opt.split(":")[0])`. */
  function OnlyNames(only: string): seq<string>
  {
    Heads(Split(only, ','))
  }

  /** `filterOnly(list, only)`. */
  function FilterOnly(list: seq<string>, only: Option<string>): (r: seq<string>)
    ensures Falsy(only) ==> r == []
  {
    if Falsy(only) then [] else Intersection(list, OnlyNames(only.value))
  }

  /**
   * With `--only` set, a member of `list` is selected exactly when some
   * comma-separated entry names it before its ":"; nothing outside `list`
   * is ever selected, and nothing twice.
   */
  lemma FilterOnlySelects(list: seq<string>, only: Option<string>)
    ensures var r := FilterOnly(list, only);
      (forall x :: x in r ==> x in list) &&
      NoDups(r) &&
      (!Falsy(only) ==> forall x :: x in r <==>
        (x in list && exists e :: e in Split(only.value, ',') && Split(e, ':')[0] == x))
  {
    if !Falsy(only) {
      var entries := Split(only.value, ',');
      var names := OnlyNames(only.value);
      forall x ensures x in names <==> exists e :: e in entries && Split(e, ':')[0] == x {
        if x in names {
          var i :| 0 <= i < |names| && names[i] == x;
          assert entries[i] in entries;
        }
        if exists e :: e in entries && Split(e, ':')[0] == x {
          var e :| e in entries && Split(e, ':')[0] == x;
          var i :| 0 <= i < |entries| && entries[i] == e;
          assert names[i] == x;
        }
      }
    }
  }

  /** The condition of the before-hook under which the config and permission checks are skipped. */
  predicate SkipsChecks(only: Option<string>)
  {
    !Falsy(only) && |only.value| > 0 && FilterOnly(RequiresAuth, only) == []
  }

  /** The checks are skipped exactly when `--only` is set and names neither hosting nor functions. */
  lemma SkipsChecksIff(only: Option<string>)
    ensures SkipsChecks(only) <==>
      !Falsy(only) && "hosting" !in OnlyNames(only.value) && "functions" !in OnlyNames(only.value)
  {
    if !Falsy(only) {
      var r := FilterOnly(RequiresAuth, only);
      if r != [] {
        assert r[0] in r;
      }
    }
  }

  /** What the action logs before serving when `--only` selects no emulator. */
  datatype Notice =
    | ServingFrom(projectDir: string)
    | NoProjectDirectory(cwd: string)

  /** The options of a `serve` run. */
  class ServeOptions {
    const only: Option<string>
    /** `options.config.projectDir`, or `None` when there is no configuration. */
    const projectDir: Option<string>
    var targets: seq<string>

    constructor(only0: Option<string>, projectDir0: Option<string>)
      ensures only == only0 && projectDir == projectDir0 && targets == []
    {
      only := only0;
      projectDir := projectDir0;
      targets := [];
    }

    /**
     * The action: the emulators named by `--only` are served when there are
     * any; otherwise a notice is logged and the targets are those
     * `filterTargets` picks from hosting and functions (`filtered`, whose
     * computation is not part of this model). `cwd` is `options.cwd` or the
     * process's working directory.
     */
    method Action(cwd: string, filtered: seq<string>) returns (notice: Option<Notice>)
      modifies this
      ensures FilterOnly(ValidEmulators, only) != [] ==> targets == FilterOnly(ValidEmulators, only) && notice.None?
      ensures FilterOnly(ValidEmulators, only) == [] ==>
        (targets == filtered &&
         notice == Some(if projectDir.Some? then ServingFrom(projectDir.value) else NoProjectDirectory(cwd)))
    {
      targets := FilterOnly(ValidEmulators, only);
      if |targets| > 0 {
        return None;
      }
      if projectDir.Some? {
        notice := Some(ServingFrom(projectDir.value));
      } else {
        notice := Some(NoProjectDirectory(cwd));
      }
      targets := filtered;
    }
  }
}
