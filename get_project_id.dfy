/**
 * Resolving the active project of a command: the `--project` option, or,
 * unless an absent project is allowed, an error that lists the aliases of
 * the project file when there are any.
 */
module GetProjectId {
  import opened Wrappers
  import opened Strs
  import opened OMaps

  /**
   * The `FirebaseError` thrown; `exit` is `None` where no exit code is given
   * (the error class's default applies; its definition is not part of this
   * model).
   */
  datatype ProjectError = ProjectError(message: string, exit: Option<int>)

  const NoProjectMessage: string :=
    "No project active. Run with --project <projectId> or define an alias by\nrunning firebase use --add"

  const AliasesIntro: string :=
    "No project active, but project aliases are available.\n\nRun firebase use <alias> with one of these options:\n\n"

  /** One line per alias: two spaces, the alias, and its project in parentheses. */
  function AliasLines(aliases: OMap<string>): (lines: seq<string>)
    ensures |lines| == |aliases|
    ensures forall i :: 0 <= i < |aliases| ==> lines[i] == "  " + aliases[i].0 + " (" + aliases[i].1 + ")"
  {
    if aliases == [] then [] else ["  " + aliases[0].0 + " (" + aliases[0].1 + ")"] + AliasLines(aliases[1..])
  }

  /** `options.project` is set (a non-empty string). */
  predicate HasProject(project: Option<string>)
  {
    project.Some? && project.value != ""
  }

  /**
   * `getProjectId(options, allowNull)`: the project as given when it is set
   * or an absent project is allowed; otherwise an error that depends only on
   * whether there are aliases.
   */
  function GetProjectId(project: Option<string>, aliases: OMap<string>, allowNull: bool): (r: Result<Option<string>, ProjectError>)
    ensures r.Ok? <==> HasProject(project) || allowNull
    ensures r.Ok? ==> r.value == project
    ensures r.Err? && aliases == [] ==> r.error == ProjectError(NoProjectMessage, Some(1))
    ensures r.Err? && aliases != [] ==>
      r.error == ProjectError(AliasesIntro + Join(AliasLines(aliases), "\n"), None)
  {
    if !HasProject(project) && !allowNull then
      if |aliases| == 0 then Err(ProjectError(NoProjectMessage, Some(1)))
      else Err(ProjectError(AliasesIntro + Join(AliasLines(aliases), "\n"), None))
    else Ok(project)
  }

  /** Every alias appears, with its project, in the error listing the aliases. */
  lemma AliasesListed(aliases: OMap<string>, i: nat)
    requires i < |aliases|
    ensures var r := GetProjectId(None, aliases, false);
      r.Err? && Contains(r.error.message, "  " + aliases[i].0 + " (" + aliases[i].1 + ")")
  {
    var lines := AliasLines(aliases);
    JoinContains(lines, "\n", i);
    var joined := Join(lines, "\n");
    var k :| 0 <= k <= |joined| - |lines[i]| && OccursAt(joined, lines[i], k);
    OccursAfter(AliasesIntro, joined, lines[i], k);
  }
}
