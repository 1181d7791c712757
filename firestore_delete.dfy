/**
 * The `firestore:delete` command: the confirmation question it asks, and
 * how the path, the confirmation and `--all-collections` decide what it
 * does.
 */
module FirestoreDelete {
  import opened Wrappers
  import opened Strs

  /** The flags of the command. */
  datatype DeleteFlags = DeleteFlags(recursive: bool, shallow: bool, allCollections: bool, yes: bool)

  const AreYouSure: string := ". Are you sure?"
  const DocumentLead: string := "You are about to delete the document at "
  const CollectionLead: string := "You are about to delete all documents in the collection at "

  /**
   * `_getConfirmationMessage(deleteOp, options)`; `isDocumentPath` is what
   * the delete operation found out about `path` (its computation is not
   * part of this model).
   */
  function ConfirmationMessage(project: string, path: string, isDocumentPath: bool, flags: DeleteFlags): string
  {
    if flags.allCollections then
      "You are about to delete " + "THE ENTIRE DATABASE" + " for " + project + AreYouSure
    else if isDocumentPath then
      if flags.recursive then DocumentLead + path + " and all of its " + "subcollections" + AreYouSure
      else DocumentLead + path + AreYouSure
    else if flags.recursive then
      CollectionLead + path + " and all of their " + "subcollections" + AreYouSure
    else CollectionLead + path + AreYouSure
  }

  /** With `--all-collections` the question depends on the project alone, whatever the path and the other flags. */
  lemma AllCollectionsFirst(project: string, path1: string, path2: string, doc1: bool, doc2: bool,
                            flags1: DeleteFlags, flags2: DeleteFlags)
    requires flags1.allCollections && flags2.allCollections
    ensures ConfirmationMessage(project, path1, doc1, flags1) == ConfirmationMessage(project, path2, doc2, flags2)
    ensures Contains(ConfirmationMessage(project, path1, doc1, flags1), "THE ENTIRE DATABASE")
  {
    var m := ConfirmationMessage(project, path1, doc1, flags1);
    var a, b := "You are about to delete ", " for " + project + AreYouSure;
    assert m == a + "THE ENTIRE DATABASE" + b;
    ContainsMiddle(a, "THE ENTIRE DATABASE", b);
  }

  /** Otherwise the question asks about a document exactly when the path is a document path. */
  lemma DocumentQuestion(project: string, path: string, isDocumentPath: bool, flags: DeleteFlags)
    requires !flags.allCollections
    ensures StartsWith(ConfirmationMessage(project, path, isDocumentPath, flags), DocumentLead) <==> isDocumentPath
  {
    var m := ConfirmationMessage(project, path, isDocumentPath, flags);
    var lead := if isDocumentPath then DocumentLead else CollectionLead;
    assert m[..|lead|] == lead;
    if !isDocumentPath {
      assert m[24] == 'a' != DocumentLead[24];
    }
  }

  /**
   * A recursive deletion's question mentions the subcollections; a
   * non-recursive one ends right after the path.
   */
  lemma RecursiveQuestion(project: string, path: string, isDocumentPath: bool, flags: DeleteFlags)
    requires !flags.allCollections
    ensures var m := ConfirmationMessage(project, path, isDocumentPath, flags);
      (flags.recursive ==> Contains(m, "subcollections")) &&
      (!flags.recursive ==> m == (if isDocumentPath then DocumentLead else CollectionLead) + path + AreYouSure)
  {
    var m := ConfirmationMessage(project, path, isDocumentPath, flags);
    if flags.recursive {
      var lead := if isDocumentPath then DocumentLead else CollectionLead;
      var before := if isDocumentPath then " and all of its " else " and all of their ";
      ContainsMiddle(lead + path + before, "subcollections", AreYouSure);
    }
  }

  /** A path argument was given: absent and empty count alike. */
  predicate HasPath(path: Option<string>)
  {
    path.Some? && path.value != ""
  }

  /** What the action ends in. */
  datatype DeleteResult =
    | Rejected(message: string, exit: int)
    | DeletedDatabase
    | Executed

  /** A question asked, or none with `--yes`, and the result. */
  datatype DeleteRun = DeleteRun(asked: Option<string>, result: DeleteResult)

  /**
   * The action: `path` is the optional argument (an empty one counts as
   * absent), `answer` the reply to the question when it is asked.
   */
  function Action(project: string, path: Option<string>, isDocumentPath: bool, flags: DeleteFlags, answer: bool): (r: DeleteRun)
    ensures !HasPath(path) && !flags.allCollections ==>
      r == DeleteRun(None, Rejected("Must specify a path.", 1))
    ensures r.asked.Some? <==> (HasPath(path) || flags.allCollections) && !flags.yes
    ensures r.asked.Some? ==>
      r.asked.value == ConfirmationMessage(project, path.GetOr(""), isDocumentPath, flags)
    ensures r.result == Rejected("Command aborted.", 1) <==>
      (HasPath(path) || flags.allCollections) && !flags.yes && !answer
    ensures r.result.DeletedDatabase? <==> flags.allCollections && (flags.yes || answer)
    ensures r.result.Executed? <==>
      !flags.allCollections && HasPath(path) && (flags.yes || answer)
  {
    if !HasPath(path) && !flags.allCollections then
      DeleteRun(None, Rejected("Must specify a path.", 1))
    else
      var asked := if flags.yes then None else Some(ConfirmationMessage(project, path.GetOr(""), isDocumentPath, flags));
      var confirm := flags.yes || answer;
      if !confirm then DeleteRun(asked, Rejected("Command aborted.", 1))
      else if flags.allCollections then DeleteRun(asked, DeletedDatabase)
      else DeleteRun(asked, Executed)
  }
}
