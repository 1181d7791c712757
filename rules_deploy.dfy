/**
 * Deploying security rules: the rules files read for a deploy, the check of
 * each file's compilation issues, and the upload of the rulesets, which on a
 * quota error may delete the oldest unreleased rulesets and try again.
 */
module RulesDeploy {
  import opened Wrappers
  import opened Strs
  import opened OMaps

  const QuotaExceededStatus: int := 429
  const RulesetCountLimit: int := 1000
  const RulesetsToGc: nat := 10

  /** One source file of a ruleset. */
  datatype RulesFile = RulesFile(name: string, content: string)

  /** A `FirebaseError`: its message and exit code (`None` for the default). */
  datatype RulesError = RulesError(message: string, exit: Option<int>)

  // ---------------------------------------------------------------- issues

  /** An issue reported by the rules test endpoint. */
  datatype Issue = Issue(severity: string, line: int, column: int, description: string)

  /** `s.substring(0, 1)`. */
  function FirstLetter(s: string): (r: string)
    ensures |r| == if s == [] then 0 else 1
    ensures s != [] ==> r[0] == s[0]
  {
    if s == [] then "" else s[..1]
  }

  /** The line reported for an issue: `[<first letter of the severity>] line:column - description`. */
  function IssueMessage(i: Issue): string
  {
    "[" + FirstLetter(i.severity) + "] " + IntToString(i.line) + ":" + IntToString(i.column) + " - " + i.description
  }

  predicate IsError(i: Issue)
  {
    i.severity == "ERROR"
  }

  /** The messages of the issues of severity ERROR, in order. */
  function Errors(issues: seq<Issue>): seq<string>
    decreases |issues|
  {
    if issues == [] then []
    else
      var last := issues[|issues| - 1];
      if IsError(last) then Errors(issues[..|issues| - 1]) + [IssueMessage(last)]
      else Errors(issues[..|issues| - 1])
  }

  /** The messages of all other issues, in order. */
  function Warnings(issues: seq<Issue>): seq<string>
    decreases |issues|
  {
    if issues == [] then []
    else
      var last := issues[|issues| - 1];
      if IsError(last) then Warnings(issues[..|issues| - 1])
      else Warnings(issues[..|issues| - 1]) + [IssueMessage(last)]
  }

  /** Every issue lands in exactly one of the two lists. */
  lemma {:induction false} IssuesPartitioned(issues: seq<Issue>)
    ensures |Errors(issues)| + |Warnings(issues)| == |issues|
    decreases |issues|
  {
    if issues != [] {
      IssuesPartitioned(issues[..|issues| - 1]);
    }
  }

  /** There are no error lines exactly when no issue is an error. */
  lemma {:induction false} NoErrorsIffNoErrorIssue(issues: seq<Issue>)
    ensures Errors(issues) == [] <==> forall k :: 0 <= k < |issues| ==> !IsError(issues[k])
    decreases |issues|
  {
    if issues != [] {
      var init := issues[..|issues| - 1];
      NoErrorsIffNoErrorIssue(init);
      assert forall k :: 0 <= k < |init| ==> init[k] == issues[k];
      if !IsError(issues[|issues| - 1]) {
        assert Errors(issues) == Errors(init);
      }
    }
  }

  /** Each error line is marked `[E]`. */
  lemma {:induction false} ErrorsMarked(issues: seq<Issue>)
    ensures forall k :: 0 <= k < |Errors(issues)| ==> StartsWith(Errors(issues)[k], "[E] ")
    decreases |issues|
  {
    if issues != [] {
      var init := issues[..|issues| - 1];
      var last := issues[|issues| - 1];
      ErrorsMarked(init);
      if IsError(last) {
        var m := IssueMessage(last);
        assert m[..4] == "[E] " by {
          assert FirstLetter(last.severity) == "E";
        }
      }
    }
  }

  /** The message of a failed compilation: singular for one error, plural otherwise. */
  function CompileMessage(filename: string, errors: seq<string>): string
  {
    "Compilation error" + (if |errors| == 1 then "" else "s") + " in " + filename + ":\n" + Join(errors, "\n")
  }

  /** One error is reported as "Compilation error in", more as "Compilation errors in". */
  lemma CompileMessageWording(filename: string, errors: seq<string>)
    requires |errors| > 0
    ensures |errors| == 1 ==> StartsWith(CompileMessage(filename, errors), "Compilation error in ")
    ensures |errors| > 1 ==> StartsWith(CompileMessage(filename, errors), "Compilation errors in ")
  {
    var m := CompileMessage(filename, errors);
    if |errors| == 1 {
      assert m == "Compilation error in " + (filename + ":\n" + Join(errors, "\n"));
    } else {
      assert m == "Compilation errors in " + (filename + ":\n" + Join(errors, "\n"));
    }
  }

  /** Every error line appears in the compilation message. */
  lemma CompileMessageListsErrors(filename: string, errors: seq<string>, k: nat)
    requires k < |errors|
    ensures Contains(CompileMessage(filename, errors), errors[k])
  {
    var joined := Join(errors, "\n");
    JoinContains(errors, "\n", k);
    var j :| 0 <= j <= |joined| - |errors[k]| && OccursAt(joined, errors[k], j);
    var prefix := "Compilation error" + (if |errors| == 1 then "" else "s") + " in " + filename + ":\n";
    assert CompileMessage(filename, errors) == prefix + joined;
    OccursAfter(prefix, joined, errors[k], j);
  }

  /** The `forEach` over the issues: each message is pushed onto the errors or the warnings. */
  method ClassifyIssues(issues: seq<Issue>) returns (warnings: seq<string>, errors: seq<string>)
    ensures warnings == Warnings(issues) && errors == Errors(issues)
  {
    warnings := [];
    errors := [];
    var i := 0;
    while i < |issues|
      invariant 0 <= i <= |issues|
      invariant warnings == Warnings(issues[..i]) && errors == Errors(issues[..i])
    {
      assert issues[..i + 1][..i] == issues[..i];
      var issueMessage := IssueMessage(issues[i]);
      if issues[i].severity == "ERROR" {
        errors := errors + [issueMessage];
      } else {
        warnings := warnings + [issueMessage];
      }
      i := i + 1;
    }
    assert issues[..|issues|] == issues;
  }

  /**
   * `_compileRuleset(filename, files)` once the test endpoint answered with
   * `issues` (an absent body or issue list is the empty list): the warnings
   * it logs, and a rejection with exit code 1 exactly when some issue is an
   * error.
   */
  method CompileRuleset(filename: string, issues: seq<Issue>) returns (logged: seq<string>, r: Outcome<RulesError>)
    ensures logged == Warnings(issues)
    ensures r.Fail? <==> exists k :: 0 <= k < |issues| && IsError(issues[k])
    ensures r.Fail? ==> r.error == RulesError(CompileMessage(filename, Errors(issues)), Some(1))
  {
    logged := [];
    r := Pass;
    if |issues| > 0 {
      var warnings, errors := ClassifyIssues(issues);
      logged := warnings;
      NoErrorsIffNoErrorIssue(issues);
      if |errors| > 0 {
        r := Fail(RulesError(CompileMessage(filename, errors), Some(1)));
      }
    }
  }

  // ---------------------------------------------------------------- garbage collection

  /**
   * A ruleset of the project's history. The history is in the order
   * `listAllRulesets` returns it; the prompt's "delete the oldest" takes
   * that order to be newest first, so its last entries are the oldest.
   */
  datatype Ruleset = Ruleset(name: string)

  /** Some release (given by its `rulesetName`) points at the ruleset. */
  predicate IsReleased(r: Ruleset, releases: seq<string>)
  {
    r.name in releases
  }

  /** `_.reject(history, isReleased)`. */
  function Unreleased(history: seq<Ruleset>, releases: seq<string>): seq<Ruleset>
  {
    if history == [] then []
    else if IsReleased(history[0], releases) then Unreleased(history[1..], releases)
    else [history[0]] + Unreleased(history[1..], releases)
  }

  /** The unreleased entries are exactly the entries of the history that no release points at. */
  lemma {:induction false} UnreleasedMembers(history: seq<Ruleset>, releases: seq<string>)
    ensures forall x :: x in Unreleased(history, releases) <==> x in history && !IsReleased(x, releases)
  {
    if history != [] {
      UnreleasedMembers(history[1..], releases);
      assert forall x :: x in history <==> x == history[0] || x in history[1..] by {
        assert history == [history[0]] + history[1..];
      }
    }
  }

  function Reverse<T>(s: seq<T>): (r: seq<T>)
    ensures |r| == |s|
    ensures forall i :: 0 <= i < |s| ==> r[i] == s[|s| - 1 - i]
  {
    if s == [] then [] else Reverse(s[1..]) + [s[0]]
  }

  /** `unreleased.reverse().slice(0, RULESETS_TO_GC)`. */
  function GcEntries(history: seq<Ruleset>, releases: seq<string>): seq<Ruleset>
  {
    LastBackwards(Unreleased(history, releases), RulesetsToGc)
  }

  /** At most `n` entries of the reversed list, from its start. */
  function LastBackwards<T>(u: seq<T>, n: nat): seq<T>
  {
    var rev := Reverse(u);
    if |rev| <= n then rev else rev[..n]
  }

  /** At most ten entries are deleted: the last unreleased entries of the history, from the last one backwards. */
  lemma GcEntriesFromEnd(history: seq<Ruleset>, releases: seq<string>)
    ensures var es := GcEntries(history, releases);
      var u := Unreleased(history, releases);
      |es| == (if |u| <= RulesetsToGc then |u| else RulesetsToGc) &&
      forall i :: 0 <= i < |es| ==> es[i] == u[|u| - 1 - i]
  {
    var u := Unreleased(history, releases);
    LastBackwardsEntries(u, RulesetsToGc);
  }

  /** The first `n` entries of a reversed list are the last `n` of the list, from the last backwards. */
  lemma LastBackwardsEntries<T>(u: seq<T>, n: nat)
    ensures var es := LastBackwards(u, n);
      |es| == (if |u| <= n then |u| else n) &&
      forall i :: 0 <= i < |es| ==> es[i] == u[|u| - 1 - i]
  {
    var rev := Reverse(u);
    var es := LastBackwards(u, n);
    forall i | 0 <= i < |es| ensures es[i] == u[|u| - 1 - i] {
      assert es[i] == rev[i];
    }
  }

  /** No released ruleset is chosen for deletion. */
  lemma GcEntriesUnreleased(history: seq<Ruleset>, releases: seq<string>)
    ensures var es := GcEntries(history, releases);
      forall i :: 0 <= i < |es| ==> es[i] in history && !IsReleased(es[i], releases)
  {
    var u := Unreleased(history, releases);
    var es := GcEntries(history, releases);
    UnreleasedMembers(history, releases);
    forall i | 0 <= i < |es| ensures es[i] in history && !IsReleased(es[i], releases) {
      GcEntriesFromEnd(history, releases);
      assert es[i] in u;
    }
  }

  /** The garbage collection runs only on a quota error, with more than the limit of rulesets, when confirmed. */
  predicate ShouldGc(status: int, historyLength: nat, confirmed: bool)
  {
    status == QuotaExceededStatus && historyLength > RulesetCountLimit && confirmed
  }

  /** How one attempt at `createRulesets` ends. */
  datatype CreateOutcome =
    | Created
    /** The original upload error, rethrown. */
    | Rethrown(status: int)
    /** The oldest unreleased rulesets were deleted; the upload is tried again. */
    | Retried(deleted: seq<string>)
    /** A deletion failed after the `deleted` ones succeeded. */
    | DeleteFailed(deleted: seq<string>, failedOn: string)

  function Names(rs: seq<Ruleset>): (ns: seq<string>)
    ensures |ns| == |rs|
    ensures forall i :: 0 <= i < |rs| ==> ns[i] == rs[i].name
  {
    if rs == [] then [] else [rs[0].name] + Names(rs[1..])
  }

  /** The index of the first entry whose deletion fails, or the length. */
  function FirstDeleteFailure(entries: seq<Ruleset>, deleteFails: string -> bool): (k: nat)
    ensures k <= |entries|
    ensures forall j :: 0 <= j < k ==> !deleteFails(entries[j].name)
    ensures k < |entries| ==> deleteFails(entries[k].name)
  {
    if entries == [] || deleteFails(entries[0].name) then 0
    else
      var k := 1 + FirstDeleteFailure(entries[1..], deleteFails);
      assert forall j :: 1 <= j < k ==> entries[j] == entries[1..][j - 1];
      k
  }

  /** The deletions in order, stopping at the first that fails. */
  function DeleteOutcome(entries: seq<Ruleset>, deleteFails: string -> bool): CreateOutcome
  {
    var k := FirstDeleteFailure(entries, deleteFails);
    if k < |entries| then DeleteFailed(Names(entries[..k]), entries[k].name) else Retried(Names(entries))
  }

  /** The `for ... of` loop that deletes the chosen rulesets one after another. */
  method DeleteOldest(entries: seq<Ruleset>, deleteFails: string -> bool) returns (r: CreateOutcome)
    ensures r == DeleteOutcome(entries, deleteFails)
  {
    var deleted: seq<string> := [];
    var k := 0;
    while k < |entries|
      invariant 0 <= k <= |entries|
      invariant |deleted| == k && forall j :: 0 <= j < k ==> deleted[j] == entries[j].name
      invariant forall j :: 0 <= j < k ==> !deleteFails(entries[j].name)
    {
      if deleteFails(entries[k].name) {
        assert deleted == Names(entries[..k]);
        assert FirstDeleteFailure(entries, deleteFails) == k;
        return DeleteFailed(deleted, entries[k].name);
      }
      deleted := deleted + [entries[k].name];
      k := k + 1;
    }
    assert deleted == Names(entries);
    return Retried(deleted);
  }

  /**
   * What `createRulesets` does after an upload failed with `status`:
   * `history` and `releases` are the project's rulesets and releases, and
   * `confirmed` the answer to the prompt (or `--force`).
   */
  function AfterUploadError(status: int, history: seq<Ruleset>, releases: seq<string>, confirmed: bool,
                            deleteFails: string -> bool): (r: CreateOutcome)
    ensures !ShouldGc(status, |history|, confirmed) ==> r == Rethrown(status)
    ensures r.Retried? ==> ShouldGc(status, |history|, confirmed) && r.deleted == Names(GcEntries(history, releases))
    ensures r.DeleteFailed? ==> ShouldGc(status, |history|, confirmed)
    ensures !r.Created?
  {
    if ShouldGc(status, |history|, confirmed) then DeleteOutcome(GcEntries(history, releases), deleteFails)
    else Rethrown(status)
  }

  /** A retry never deletes more than ten rulesets, and never a released one. */
  lemma RetryDeletesFewUnreleased(status: int, history: seq<Ruleset>, releases: seq<string>, confirmed: bool,
                                  deleteFails: string -> bool)
    ensures var r := AfterUploadError(status, history, releases, confirmed, deleteFails);
      r.Retried? ==> (|r.deleted| <= RulesetsToGc &&
                      forall i :: 0 <= i < |r.deleted| ==>
                        exists x :: x in history && !IsReleased(x, releases) && x.name == r.deleted[i])
  {
    var r := AfterUploadError(status, history, releases, confirmed, deleteFails);
    if r.Retried? {
      GcEntriesUnreleased(history, releases);
      GcEntriesFromEnd(history, releases);
      var es := GcEntries(history, releases);
      forall i | 0 <= i < |r.deleted|
        ensures exists x :: x in history && !IsReleased(x, releases) && x.name == r.deleted[i]
      {
        assert es[i] in history && !IsReleased(es[i], releases);
      }
    }
  }

  // ---------------------------------------------------------------- uploads

  /** The ruleset names recorded for the files whose upload succeeded, in file order. */
  function RecordUploads(names: OMap<string>, files: OMap<seq<RulesFile>>,
                         upload: seq<RulesFile> -> Result<string, int>): OMap<string>
    decreases |files|
  {
    if files == [] then names
    else
      var last := files[|files| - 1];
      var before := RecordUploads(names, files[..|files| - 1], upload);
      match upload(last.1)
      case Ok(rulesetName) => Put(before, last.0, rulesetName)
      case Err(_) => before
  }

  /** The status of the first failed upload, in file order. */
  function FirstUploadError(files: OMap<seq<RulesFile>>, upload: seq<RulesFile> -> Result<string, int>): Option<int>
    decreases |files|
  {
    if files == [] then None
    else
      match FirstUploadError(files[..|files| - 1], upload)
      case Some(s) => Some(s)
      case None =>
        match upload(files[|files| - 1].1)
        case Ok(_) => None
        case Err(s) => Some(s)
  }

  /** A file's recorded name is the name its upload returned; names of other files stay as they were. */
  lemma {:induction false} UploadsRecorded(names: OMap<string>, files: OMap<seq<RulesFile>>,
                                           upload: seq<RulesFile> -> Result<string, int>, key: string)
    requires UniqueKeys(files)
    ensures key !in Keys(files) ==> Get(RecordUploads(names, files, upload), key) == Get(names, key)
    ensures forall i :: 0 <= i < |files| && files[i].0 == key && upload(files[i].1).Ok? ==>
      Get(RecordUploads(names, files, upload), key) == Some(upload(files[i].1).value)
    decreases |files|
  {
    if files != [] {
      var n := |files| - 1;
      var init := files[..n];
      UniqueKeysPrefix(files, n);
      KeysPrefix(files, n);
      UploadsRecorded(names, init, upload, key);
      RecordLast(names, files, upload, key);
      forall i | 0 <= i < |files| && files[i].0 == key && upload(files[i].1).Ok?
        ensures Get(RecordUploads(names, files, upload), key) == Some(upload(files[i].1).value)
      {
        if i < n {
          assert init[i] == files[i];
        }
      }
    }
  }

  /** Recording the last file changes at most that file's entry. */
  lemma RecordLast(names: OMap<string>, files: OMap<seq<RulesFile>>,
                   upload: seq<RulesFile> -> Result<string, int>, key: string)
    requires files != []
    ensures var last := files[|files| - 1];
      Get(RecordUploads(names, files, upload), key) ==
        if last.0 == key && upload(last.1).Ok? then Some(upload(last.1).value)
        else Get(RecordUploads(names, files[..|files| - 1], upload), key)
  {
    var last := files[|files| - 1];
    if upload(last.1).Ok? {
      PutGet(RecordUploads(names, files[..|files| - 1], upload), last.0, upload(last.1).value, key);
    }
  }

  /** A prefix of a map without repeated keys has none either. */
  lemma UniqueKeysPrefix<V>(m: OMap<V>, n: nat)
    requires n <= |m| && UniqueKeys(m)
    ensures UniqueKeys(m[..n])
  {
  }

  /** The keys of a map are those of all but its last entry, then the last one's. */
  lemma KeysPrefix<V>(m: OMap<V>, n: nat)
    requires n == |m| - 1
    ensures Keys(m) == Keys(m[..n]) + [m[n].0]
  {
    var a := Keys(m);
    var b := Keys(m[..n]) + [m[n].0];
    forall i | 0 <= i < |a| ensures a[i] == b[i] {
      if i < n {
        assert m[..n][i] == m[i];
      }
    }
  }

  /** The result of one attempt at `createRulesets`, with the deletion oracle and the project state as inputs. */
  function CreateResult(files: OMap<seq<RulesFile>>, upload: seq<RulesFile> -> Result<string, int>,
                        history: seq<Ruleset>, releases: seq<string>, confirmed: bool,
                        deleteFails: string -> bool): CreateOutcome
  {
    match FirstUploadError(files, upload)
    case None => Created
    case Some(status) => AfterUploadError(status, history, releases, confirmed, deleteFails)
  }

  /** The attempt succeeds exactly when every upload succeeds. */
  lemma {:induction false} CreatedIffAllUploaded(files: OMap<seq<RulesFile>>, upload: seq<RulesFile> -> Result<string, int>,
                                                 history: seq<Ruleset>, releases: seq<string>, confirmed: bool,
                                                 deleteFails: string -> bool)
    ensures CreateResult(files, upload, history, releases, confirmed, deleteFails).Created? <==>
      forall i :: 0 <= i < |files| ==> upload(files[i].1).Ok?
    decreases |files|
  {
    if files != [] {
      var init := files[..|files| - 1];
      assert forall i :: 0 <= i < |init| ==> init[i] == files[i];
      CreatedIffAllUploaded(init, upload, history, releases, confirmed, deleteFails);
    }
  }

  // ---------------------------------------------------------------- RulesDeploy

  /** Some issue of `issues` has severity ERROR. */
  predicate HasErrorIssue(issues: seq<Issue>)
  {
    exists k :: 0 <= k < |issues| && IsError(issues[k])
  }

  /** `i` is the first file, in order, whose issues hold an error. */
  predicate FirstFailingFile(files: OMap<seq<RulesFile>>, issuesOf: seq<RulesFile> -> seq<Issue>, i: int)
  {
    0 <= i < |files| && HasErrorIssue(issuesOf(files[i].1)) &&
    forall j :: 0 <= j < i ==> !HasErrorIssue(issuesOf(files[j].1))
  }

  class RulesDeploy {
    const kind: string
    const project: Option<string>
    var rulesFiles: OMap<seq<RulesFile>>
    var rulesetNames: OMap<string>

    /** `new RulesDeploy(options, type)`. */
    constructor(project0: Option<string>, kind0: string)
      ensures kind == kind0 && project == project0
      ensures rulesFiles == [] && rulesetNames == []
    {
      kind := kind0;
      project := project0;
      rulesFiles := [];
      rulesetNames := [];
    }

    /**
     * `addFile(path)`, with `read` the file's text or `None` when reading it
     * fails: the path's entry becomes the one file read, or the call throws
     * and nothing changes.
     */
    method AddFile(path: string, read: Option<string>) returns (r: Outcome<RulesError>)
      modifies this
      ensures r.Fail? <==> read.None?
      ensures r.Fail? ==> r.error == RulesError("Error reading rules file " + path, None) && rulesFiles == old(rulesFiles)
      ensures r.Pass? ==> rulesFiles == Put(old(rulesFiles), path, [RulesFile(path, read.value)])
      ensures r.Pass? ==> Get(rulesFiles, path) == Some([RulesFile(path, read.value)])
      ensures forall k :: k != path ==> Get(rulesFiles, k) == Get(old(rulesFiles), k)
      ensures rulesetNames == old(rulesetNames)
    {
      if read.None? {
        return Fail(RulesError("Error reading rules file " + path, None));
      }
      var before := rulesFiles;
      rulesFiles := Put(rulesFiles, path, [RulesFile(path, read.value)]);
      forall k ensures Get(rulesFiles, k) == if k == path then Some([RulesFile(path, read.value)]) else Get(before, k) {
        PutGet(before, path, [RulesFile(path, read.value)], k);
      }
      r := Pass;
    }

    /**
     * `compile()`: each file's issues (`issuesOf`, the test endpoint's
     * answer) are checked; the first rejection in file order is the result:
     * the compile message of the first file with an error.
     */
    method Compile(issuesOf: seq<RulesFile> -> seq<Issue>) returns (r: Outcome<RulesError>)
      ensures r.Fail? <==> exists i, k :: (0 <= i < |rulesFiles| && 0 <= k < |issuesOf(rulesFiles[i].1)| &&
                                          IsError(issuesOf(rulesFiles[i].1)[k]))
      ensures r.Fail? ==>
        (exists i :: FirstFailingFile(rulesFiles, issuesOf, i) &&
           r.error == RulesError(CompileMessage(rulesFiles[i].0, Errors(issuesOf(rulesFiles[i].1))), Some(1)))
    {
      var i := 0;
      while i < |rulesFiles|
        invariant 0 <= i <= |rulesFiles|
        invariant forall j, k :: 0 <= j < i && 0 <= k < |issuesOf(rulesFiles[j].1)| ==> !IsError(issuesOf(rulesFiles[j].1)[k])
      {
        var _, result := CompileRuleset(rulesFiles[i].0, issuesOf(rulesFiles[i].1));
        if result.Fail? {
          assert FirstFailingFile(rulesFiles, issuesOf, i);
          return result;
        }
        i := i + 1;
      }
      return Pass;
    }

    /** The upload loop: each file's ruleset is created, and a success records its name. */
    method UploadAll(upload: seq<RulesFile> -> Result<string, int>) returns (err: Option<int>)
      modifies this
      ensures rulesetNames == RecordUploads(old(rulesetNames), rulesFiles, upload)
      ensures err == FirstUploadError(rulesFiles, upload)
      ensures rulesFiles == old(rulesFiles)
    {
      ghost var names0 := rulesetNames;
      err := None;
      var i := 0;
      while i < |rulesFiles|
        invariant 0 <= i <= |rulesFiles| && rulesFiles == old(rulesFiles)
        decreases |rulesFiles| - i
        invariant rulesetNames == RecordUploads(names0, rulesFiles[..i], upload)
        invariant err == FirstUploadError(rulesFiles[..i], upload)
      {
        assert rulesFiles[..i + 1][..i] == rulesFiles[..i];
        var filename := rulesFiles[i].0;
        match upload(rulesFiles[i].1) {
          case Ok(rulesetName) =>
            rulesetNames := Put(rulesetNames, filename, rulesetName);
          case Err(status) =>
            if err.None? {
              err := Some(status);
            }
        }
        i := i + 1;
      }
      assert rulesFiles[..|rulesFiles|] == rulesFiles;
    }

    /**
     * One attempt at `createRulesets()`: upload every file; on a failure,
     * perhaps delete the oldest unreleased rulesets (then the caller tries
     * again), or rethrow the original error.
     */
    method CreateRulesets(upload: seq<RulesFile> -> Result<string, int>, history: seq<Ruleset>,
                          releases: seq<string>, confirmed: bool, deleteFails: string -> bool)
      returns (r: CreateOutcome)
      modifies this
      ensures rulesFiles == old(rulesFiles)
      ensures rulesetNames == RecordUploads(old(rulesetNames), rulesFiles, upload)
      ensures r == CreateResult(rulesFiles, upload, history, releases, confirmed, deleteFails)
    {
      var err := UploadAll(upload);
      if err.None? {
        return Created;
      }
      var status := err.value;
      if status == QuotaExceededStatus && |history| > RulesetCountLimit && confirmed {
        r := DeleteOldest(GcEntries(history, releases), deleteFails);
      } else {
        r := Rethrown(status);
      }
    }
  }
}
