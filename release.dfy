/**
 * The release step of a functions deploy: the scheduled-function resource
 * rewrite, the split of the deploy into functions to create, update and
 * delete, the per-function operations queued for each, the guard on
 * deletions, and the final failure report.
 */
module Release {
  import opened Wrappers
  import opened Strs
  import opened Lists
  import opened Json
  import opened FunctionsDeployHelper

  const PubsubPublish: string := "google.pubsub.topic.publish"
  const LegacyStorageChange: string := "providers/cloud.storage/eventTypes/object.change"
  const LegacyPubsubPublish: string := "providers/cloud.pubsub/eventTypes/topic.publish"

  // ------------------------------------------------------ scheduled functions

  /** A function with a truthy schedule whose event is a Pub/Sub publish. */
  predicate IsScheduledPubsub(fn: FunctionInfo)
  {
    fn.body.eventTrigger.Some? && fn.body.schedule.Some? && Truthy(fn.body.schedule.value) &&
    fn.body.eventTrigger.value.eventType == PubsubPublish
  }

  /** The schedule suffix, from segments 5 and 3 of the full name. */
  function ScheduleSuffix(fullName: string): string
  {
    "/firebase-schedule-" + Text(Segment(fullName, 5)) + "-" + Text(Segment(fullName, 3))
  }

  /** The rewrite applied to each record before the release: scheduled functions listen on their own topic. */
  function RewriteScheduled(fn: FunctionInfo): (r: FunctionInfo)
    ensures r.name == fn.name
    ensures !IsScheduledPubsub(fn) ==> r == fn
    ensures IsScheduledPubsub(fn) ==>
      r.body == fn.body.(eventTrigger := Some(fn.body.eventTrigger.value.(
        resource := fn.body.eventTrigger.value.resource + ScheduleSuffix(fn.name))))
  {
    if IsScheduledPubsub(fn) then
      var t := fn.body.eventTrigger.value;
      fn.(body := fn.body.(eventTrigger := Some(t.(resource := t.resource + ScheduleSuffix(fn.name)))))
    else fn
  }

  /**
   * For a deployed function the suffix names the function and its region,
   * matching the last part of its topic name.
   */
  lemma ScheduleSuffixOfFullName(projectId: string, region: string, name: string)
    requires '/' !in projectId && '/' !in region && '/' !in name
    ensures ScheduleSuffix(FullName(projectId, region, name)) == "/firebase-schedule-" + name + "-" + region
  {
    FullNameRoundTrip(projectId, region, name);
  }

  /** `functionsInfo.map(...)` with the rewrite. */
  function RewriteAll(infos: seq<FunctionInfo>): (r: seq<FunctionInfo>)
    ensures |r| == |infos|
    ensures forall i :: 0 <= i < |infos| ==> r[i] == RewriteScheduled(infos[i])
  {
    if infos == [] then [] else [RewriteScheduled(infos[0])] + RewriteAll(infos[1..])
  }

  /** `_.map(functionsInfo, "name")`. */
  function Names(infos: seq<FunctionInfo>): (r: seq<string>)
    ensures |r| == |infos|
    ensures forall i :: 0 <= i < |infos| ==> r[i] == infos[i].name
  {
    if infos == [] then [] else [infos[0].name] + Names(infos[1..])
  }

  /** The rewrite renames nothing: the uploaded names are those of the records. */
  lemma RewriteKeepsNames(infos: seq<FunctionInfo>)
    ensures Names(RewriteAll(infos)) == Names(infos)
  {
  }

  // ------------------------------------------------------- existing functions

  /** A function the project already has, as `listAll` reports it. */
  datatype ExistingFunction = ExistingFunction(
    name: string,
    labels: Option<Json>,
    sourceArchiveUrl: Option<string>,
    eventType: Option<string>,
    runtime: Option<string>)

  /** `labels["deployment-scheduled"] === "true"`. */
  predicate IsScheduledExisting(fn: ExistingFunction)
  {
    fn.labels.Some? && Prop(fn.labels.value, "deployment-scheduled") == Some(JStr("true"))
  }

  /**
   * The function was deployed by this tool: judged by its labels when it
   * has any (`deploymentTool.check`, a parameter here), and otherwise by
   * one of the two legacy source archive locations.
   */
  predicate Managed(fn: ExistingFunction, projectId: string, storageBucket: Option<string>, check: Json -> bool)
  {
    if fn.labels.None? then
      fn.sourceArchiveUrl == Some("gs://" + projectId + "-gcf/" + projectId) ||
      fn.sourceArchiveUrl == Some("gs://" + "staging." + Text(storageBucket) + "/firebase-functions-source")
    else check(fn.labels.value)
  }

  /** `_.map(existingFunctions, "name")`. */
  function ExistingNames(existing: seq<ExistingFunction>): (r: seq<string>)
    ensures |r| == |existing|
    ensures forall i :: 0 <= i < |existing| ==> r[i] == existing[i].name
  {
    if existing == [] then [] else [existing[0].name] + ExistingNames(existing[1..])
  }

  /** `existingFunctions.filter(...)` with the managed test, in order. */
  function ManagedFunctions(existing: seq<ExistingFunction>, projectId: string, storageBucket: Option<string>, check: Json -> bool): (r: seq<ExistingFunction>)
    ensures forall f :: f in r <==> f in existing && Managed(f, projectId, storageBucket, check)
    decreases |existing|
  {
    if existing == [] then []
    else
      var rest := ManagedFunctions(existing[..|existing| - 1], projectId, storageBucket, check);
      var f := existing[|existing| - 1];
      assert forall g :: g in existing <==> g in existing[..|existing| - 1] || g == f by {
        assert existing == existing[..|existing| - 1] + [f];
      }
      if Managed(f, projectId, storageBucket, check) then rest + [f] else rest
  }

  /** `existingFunctions.filter(isScheduled)`, in order. */
  function ScheduledFunctions(existing: seq<ExistingFunction>): (r: seq<ExistingFunction>)
    ensures forall f :: f in r <==> f in existing && IsScheduledExisting(f)
    decreases |existing|
  {
    if existing == [] then []
    else
      var rest := ScheduledFunctions(existing[..|existing| - 1]);
      var f := existing[|existing| - 1];
      assert forall g :: g in existing <==> g in existing[..|existing| - 1] || g == f by {
        assert existing == existing[..|existing| - 1] + [f];
      }
      if IsScheduledExisting(f) then rest + [f] else rest
  }

  /** A name is among the managed (or scheduled) names exactly when some such existing function has it. */
  lemma NamesOfFiltered(existing: seq<ExistingFunction>, filtered: seq<ExistingFunction>, x: string)
    requires forall f :: f in filtered ==> f in existing
    ensures x in ExistingNames(filtered) <==> exists f :: f in filtered && f.name == x
    ensures x in ExistingNames(filtered) ==> x in ExistingNames(existing)
  {
    if x in ExistingNames(filtered) {
      var i :| 0 <= i < |filtered| && ExistingNames(filtered)[i] == x;
      assert filtered[i] in existing;
      var j :| 0 <= j < |existing| && existing[j] == filtered[i];
      assert ExistingNames(existing)[j] == x;
    }
    if f :| f in filtered && f.name == x {
      var i :| 0 <= i < |filtered| && filtered[i] == f;
      assert ExistingNames(filtered)[i] == x;
    }
  }

  // -------------------------------------------------------------- the split

  /** The names the deletions are restricted to: the release names when filtering, else all existing names. */
  function DeleteReleaseNames(releaseNames: seq<string>, existingNames: seq<string>, groups: seq<seq<string>>): seq<string>
  {
    if |groups| > 0 then releaseNames else existingNames
  }

  /** `_.chain(uploaded).difference(existing).intersection(release)`. */
  function CreateNames(uploaded: seq<string>, existingNames: seq<string>, releaseNames: seq<string>): (r: seq<string>)
    ensures NoDups(r)
  {
    Intersection(Difference(uploaded, existingNames), releaseNames)
  }

  /** `_.chain(uploaded).intersection(existing).intersection(release)`. */
  function UpdateNames(uploaded: seq<string>, existingNames: seq<string>, releaseNames: seq<string>): (r: seq<string>)
    ensures NoDups(r)
  {
    Intersection(Intersection(uploaded, existingNames), releaseNames)
  }

  /** `_.chain(managed names).difference(uploaded).intersection(deleteReleaseNames)`. */
  function DeleteNames(managed: seq<string>, uploaded: seq<string>, deleteReleaseNames: seq<string>): (r: seq<string>)
    ensures NoDups(r)
  {
    Intersection(Difference(managed, uploaded), deleteReleaseNames)
  }

  /**
   * The three sets: creations are the released uploaded names that do not
   * exist yet, updates those that do, deletions the managed existing names
   * that are no longer uploaded and fall under the deletion scope; no name
   * is in two of them.
   */
  lemma ReleaseSplit(uploaded: seq<string>, existingNames: seq<string>, releaseNames: seq<string>,
                     managed: seq<string>, deleteReleaseNames: seq<string>, x: string)
    ensures x in CreateNames(uploaded, existingNames, releaseNames) <==>
      x in uploaded && x !in existingNames && x in releaseNames
    ensures x in UpdateNames(uploaded, existingNames, releaseNames) <==>
      x in uploaded && x in existingNames && x in releaseNames
    ensures x in DeleteNames(managed, uploaded, deleteReleaseNames) <==>
      x in managed && x !in uploaded && x in deleteReleaseNames
    ensures !(x in CreateNames(uploaded, existingNames, releaseNames) && x in UpdateNames(uploaded, existingNames, releaseNames))
    ensures !(x in DeleteNames(managed, uploaded, deleteReleaseNames) &&
              (x in CreateNames(uploaded, existingNames, releaseNames) || x in UpdateNames(uploaded, existingNames, releaseNames)))
  {
  }

  /**
   * Without filter groups every uploaded name is released, so creations and
   * updates together are exactly the uploaded names, and every managed
   * existing function that is no longer uploaded is deleted.
   */
  lemma UnfilteredRelease(uploaded: seq<string>, existing: seq<string>, managed: seq<string>, x: string)
    requires forall y :: y in managed ==> y in existing
    ensures var release := GetReleaseNames(uploaded, existing, []);
      (x in CreateNames(uploaded, existing, release) || x in UpdateNames(uploaded, existing, release) <==> x in uploaded) &&
      (x in DeleteNames(managed, uploaded, DeleteReleaseNames(release, existing, [])) <==> x in managed && x !in uploaded)
  {
  }

  // -------------------------------------------------------------- operations

  datatype ReleaseError =
    | LegacyTrigger(functionName: Option<string>)   // the legacy-trigger migration error
    | NoRecord(name: string)                        // reading the trigger of a record `_.find` did not find
    | DeletionAborted(deleteList: string, commands: string)  // non-interactive deletions without --force
    | DeployFailed                                  // `Functions did not deploy properly.`

  /**
   * A queued operation (`deployments.push`): the full name, and what the
   * create, update or delete call is given beyond what the name determines
   * (see `Region`, `FunctionName`, `ScheduleName` and `TopicName`).
   */
  datatype Deployment =
    | Create(name: string, trigger: FunctionTrigger, runtime: string, body: TriggerBody)
    | Update(name: string, trigger: FunctionTrigger, sentRuntime: Option<string>, shownRuntime: string, body: TriggerBody)
    | Delete(name: string, scheduled: bool)

  /** The region the call is made in. */
  function Region(d: Deployment): Option<string>
  {
    GetRegion(d.name)
  }

  /** The short function name the call is made for. */
  function FunctionName(d: Deployment): Option<string>
  {
    GetFunctionName(d.name)
  }

  /** The Cloud Scheduler job a scheduled deletion removes first. */
  function ScheduleName(d: Deployment, appEngineLocation: string): string
  {
    GetScheduleName(d.name, appEngineLocation)
  }

  /** The Pub/Sub topic a scheduled deletion removes next. */
  function TopicName(d: Deployment): string
  {
    GetTopicName(d.name)
  }

  /** The event type a creation is made with. */
  function CreateEventType(d: Deployment): string
    requires d.Create?
  {
    EventTypeOf(d.trigger)
  }

  /** A queued operation for a function deployed under a slash-free project, region and name acts on that region and name. */
  lemma DeploymentTargets(d: Deployment, projectId: string, region: string, name: string)
    requires '/' !in projectId && '/' !in region && '/' !in name
    requires d.name == FullName(projectId, region, name)
    ensures Region(d) == Some(region) && FunctionName(d) == Some(name)
  {
    FullNameRoundTrip(projectId, region, name);
  }

  /** `functionTrigger.eventTrigger ? functionTrigger.eventTrigger.eventType : "https"`. */
  function EventTypeOf(t: FunctionTrigger): string
  {
    if t.EventTriggerOf? then t.event.eventType else "https"
  }

  /** The position of the first uploaded record named `name`, or the number of records when none is. */
  function FirstInfoIndex(infos: seq<FunctionInfo>, name: string): (i: nat)
    ensures i <= |infos|
    ensures forall j :: 0 <= j < i ==> infos[j].name != name
    ensures i < |infos| ==> infos[i].name == name
  {
    if infos == [] then 0
    else if infos[0].name == name then 0
    else 1 + FirstInfoIndex(infos[1..], name)
  }

  /** `_.find(records, {name})`: the first of them with the name. */
  function FindInfo(infos: seq<FunctionInfo>, name: string): (r: Option<FunctionInfo>)
    ensures r.Some? <==> name in Names(infos)
    ensures r.Some? ==> r.value in infos && r.value.name == name
  {
    if infos == [] then None
    else if infos[0].name == name then Some(infos[0])
    else FindInfo(infos[1..], name)
  }

  /** `_.find` returns the first record with the name. */
  lemma {:induction false} FindInfoFirst(infos: seq<FunctionInfo>, name: string)
    ensures FindInfo(infos, name).Some? <==> FirstInfoIndex(infos, name) < |infos|
    ensures FindInfo(infos, name).Some? ==> FindInfo(infos, name).value == infos[FirstInfoIndex(infos, name)]
  {
    if infos != [] && infos[0].name != name {
      FindInfoFirst(infos[1..], name);
    }
  }

  /** The position of the first existing function named `name`, or the number of them when none is. */
  function FirstExistingIndex(existing: seq<ExistingFunction>, name: string): (i: nat)
    ensures i <= |existing|
    ensures forall j :: 0 <= j < i ==> existing[j].name != name
    ensures i < |existing| ==> existing[i].name == name
  {
    if existing == [] then 0
    else if existing[0].name == name then 0
    else 1 + FirstExistingIndex(existing[1..], name)
  }

  /** `_.find(existingFunctions, {name})`: the first of them with the name. */
  function FindExisting(existing: seq<ExistingFunction>, name: string): (r: Option<ExistingFunction>)
    ensures r.Some? <==> name in ExistingNames(existing)
    ensures r.Some? ==> r.value in existing && r.value.name == name
  {
    if existing == [] then None
    else if existing[0].name == name then Some(existing[0])
    else FindExisting(existing[1..], name)
  }

  /** `_.find` returns the first existing function with the name. */
  lemma {:induction false} FindExistingFirst(existing: seq<ExistingFunction>, name: string)
    ensures FindExisting(existing, name).Some? <==> FirstExistingIndex(existing, name) < |existing|
    ensures FindExisting(existing, name).Some? ==>
      FindExisting(existing, name).value == existing[FirstExistingIndex(existing, name)]
  {
    if existing != [] && existing[0].name != name {
      FindExistingFirst(existing[1..], name);
    }
  }

  /** The runtime of a creation: a truthy runtime choice, else the default. */
  function CreateRuntime(runtimeChoice: Option<string>): string
  {
    if runtimeChoice.Some? && runtimeChoice.value != "" then runtimeChoice.value else DefaultRuntime
  }

  /** The runtime sent with an update: only a truthy runtime choice. */
  function UpdateRuntime(runtimeChoice: Option<string>): Option<string>
  {
    if runtimeChoice.Some? && runtimeChoice.value != "" then runtimeChoice else None
  }

  /** The runtime an update reports: the one sent, else the existing function's, else nodejs6. */
  function ShownUpdateRuntime(runtimeChoice: Option<string>, existingRuntime: Option<string>): (r: string)
    ensures runtimeChoice.Some? && runtimeChoice.value != "" ==> r == runtimeChoice.value
    ensures (runtimeChoice.None? || runtimeChoice.value == "") && existingRuntime.Some? ==> r == existingRuntime.value
    ensures (runtimeChoice.None? || runtimeChoice.value == "") && existingRuntime.None? ==> r == DefaultRuntime
  {
    var sent := UpdateRuntime(runtimeChoice);
    if sent.Some? then sent.value else existingRuntime.GetOr(DefaultRuntime)
  }

  /** `/google.storage.object./` matches at the start of `s`. */
  predicate StorageObjectPrefix(s: string)
  {
    |s| >= 22 && StartsWith(s, "google") && !IsLineTerminator(s[6]) &&
    StartsWith(s[7..], "storage") && !IsLineTerminator(s[14]) &&
    StartsWith(s[15..], "object") && !IsLineTerminator(s[21])
  }

  /** `eventType.match(/google.storage.object./)`: the pattern matches at some position. */
  predicate MatchesStorageObject(s: string)
    decreases |s|
  {
    StorageObjectPrefix(s) || (|s| > 22 && MatchesStorageObject(s[1..]))
  }

  /** An update that would move a function off a legacy trigger type. */
  predicate IsLegacyMigration(eventType: string, existingEventType: Option<string>)
  {
    (MatchesStorageObject(eventType) && existingEventType == Some(LegacyStorageChange)) ||
    (eventType == PubsubPublish && existingEventType == Some(LegacyPubsubPublish))
  }

  /** The new storage event types all match; the legacy ones themselves do not. */
  lemma StorageObjectExamples()
    ensures MatchesStorageObject("google.storage.object.finalize")
    ensures !IsLegacyMigration("https", Some(LegacyStorageChange))
    ensures IsLegacyMigration("google.pubsub.topic.publish", Some(LegacyPubsubPublish))
  {
    var s := "google.storage.object.finalize";
    assert s[..6] == "google" && s[7..][..7] == "storage" && s[15..][..6] == "object";
    assert s[6] == '.' && s[14] == '.' && s[21] == '.';
    assert StorageObjectPrefix(s);
  }

  /** Every name is one of the uploaded functions. */
  predicate AllUploaded(infos: seq<FunctionInfo>, names: seq<string>)
  {
    forall n :: n in names ==> n in Names(infos)
  }

  /** The operation queued to create `name`: the uploaded record of that name, with its trigger and runtime. */
  function CreateOp(infos: seq<FunctionInfo>, name: string, runtimeChoice: Option<string>): (d: Deployment)
    requires name in Names(infos)
    ensures d.Create? && d.name == name && FunctionInfo(name, d.body) in infos
    ensures d.trigger == GetFunctionTrigger(d.body)
    ensures d.runtime == CreateRuntime(runtimeChoice)
  {
    var info := FindInfo(infos, name).value;
    Create(name, GetFunctionTrigger(info.body), CreateRuntime(runtimeChoice), info.body)
  }

  /**
   * The operation queued to update `name`: the legacy-trigger error, or the
   * update with the runtime chosen, and the runtime shown falling back on
   * the existing function's. A name without an uploaded record would fail
   * on reading its trigger; one without an existing function reads as
   * having no event type and no runtime.
   */
  function UpdateOp(infos: seq<FunctionInfo>, existing: seq<ExistingFunction>, name: string, runtimeChoice: Option<string>): (r: Result<Deployment, ReleaseError>)
    ensures FindInfo(infos, name).None? ==> r == Err(NoRecord(name))
    ensures FindInfo(infos, name).Some? ==>
      (r.Err? <==> IsLegacyMigration(EventTypeOf(GetFunctionTrigger(FindInfo(infos, name).value.body)), ExistingEventType(existing, name)))
    ensures FindInfo(infos, name).Some? && r.Err? ==> r.error == LegacyTrigger(GetFunctionName(name))
    ensures r.Ok? ==> r.value.Update? && r.value.name == name && FunctionInfo(name, r.value.body) in infos
    ensures r.Ok? ==> r.value.trigger == GetFunctionTrigger(r.value.body)
    ensures r.Ok? ==> r.value.sentRuntime == UpdateRuntime(runtimeChoice)
    ensures r.Ok? ==> r.value.shownRuntime == ShownUpdateRuntime(runtimeChoice, ExistingRuntime(existing, name))
  {
    match FindInfo(infos, name)
    case None => Err(NoRecord(name))
    case Some(info) =>
      var trigger := GetFunctionTrigger(info.body);
      if IsLegacyMigration(EventTypeOf(trigger), ExistingEventType(existing, name)) then Err(LegacyTrigger(GetFunctionName(name)))
      else Ok(Update(name, trigger, UpdateRuntime(runtimeChoice), ShownUpdateRuntime(runtimeChoice, ExistingRuntime(existing, name)), info.body))
  }

  /** `_.get(existingFunction, "eventTrigger.eventType")`. */
  function ExistingEventType(existing: seq<ExistingFunction>, name: string): Option<string>
  {
    match FindExisting(existing, name)
    case None => None
    case Some(f) => f.eventType
  }

  /** `_.get(existingFunction, "runtime")`. */
  function ExistingRuntime(existing: seq<ExistingFunction>, name: string): Option<string>
  {
    match FindExisting(existing, name)
    case None => None
    case Some(f) => f.runtime
  }

  /** What the update loop would make of each name, were it to run to the end. */
  function UpdateOps(infos: seq<FunctionInfo>, existing: seq<ExistingFunction>, names: seq<string>, runtimeChoice: Option<string>): (rs: seq<Result<Deployment, ReleaseError>>)
    ensures |rs| == |names|
    decreases |names|
  {
    if names == [] then []
    else UpdateOps(infos, existing, names[..|names| - 1], runtimeChoice) + [UpdateOp(infos, existing, names[|names| - 1], runtimeChoice)]
  }

  /** Entry `j` is the operation (or error) for name `j`. */
  lemma {:induction false} UpdateOpsAt(infos: seq<FunctionInfo>, existing: seq<ExistingFunction>, names: seq<string>, runtimeChoice: Option<string>, j: nat)
    requires j < |names|
    ensures UpdateOps(infos, existing, names, runtimeChoice)[j] == UpdateOp(infos, existing, names[j], runtimeChoice)
    decreases |names|
  {
    if j < |names| - 1 {
      UpdateOpsAt(infos, existing, names[..|names| - 1], runtimeChoice, j);
    }
  }

  /** When every name has an uploaded record, the update loop can only stop at a legacy trigger. */
  lemma FirstUpdateErrorIsLegacy(infos: seq<FunctionInfo>, existing: seq<ExistingFunction>, names: seq<string>, runtimeChoice: Option<string>)
    requires forall x :: x in names ==> FindInfo(infos, x).Some?
    requires FirstErr(UpdateOps(infos, existing, names, runtimeChoice)) < |names|
    ensures var k := FirstErr(UpdateOps(infos, existing, names, runtimeChoice));
      UpdateOps(infos, existing, names, runtimeChoice)[k] == Err(LegacyTrigger(GetFunctionName(names[k])))
  {
    var rs := UpdateOps(infos, existing, names, runtimeChoice);
    var k := FirstErr(rs);
    FirstErrSpec(rs);
    UpdateOpsAt(infos, existing, names, runtimeChoice, k);
  }

  /** The creation operations for `names`, in order. */
  function CreateOps(infos: seq<FunctionInfo>, names: seq<string>, runtimeChoice: Option<string>): (ds: seq<Deployment>)
    requires AllUploaded(infos, names)
    ensures |ds| == |names|
    ensures forall j :: 0 <= j < |names| ==> ds[j] == CreateOp(infos, names[j], runtimeChoice)
  {
    seq(|names|, j requires 0 <= j < |names| => CreateOp(infos, names[j], runtimeChoice))
  }

  /** The deletion operations for `names`, in order. */
  function DeleteOps(names: seq<string>, scheduled: seq<string>): (ds: seq<Deployment>)
    ensures |ds| == |names|
    ensures forall j :: 0 <= j < |names| ==> ds[j] == DeleteOp(names[j], scheduled)
  {
    seq(|names|, j requires 0 <= j < |names| => DeleteOp(names[j], scheduled))
  }

  /** The operation queued to delete `name`. */
  function DeleteOp(name: string, scheduled: seq<string>): (d: Deployment)
    ensures d.Delete? && d.name == name
    ensures d.scheduled <==> name in scheduled
  {
    Delete(name, name in scheduled)
  }

  /** One line per function about to be deleted, `\t` and its label. */
  function DeleteListLines(names: seq<string>): (r: seq<string>)
    ensures |r| == |names|
    ensures forall i :: 0 <= i < |names| ==> r[i] == "\t" + GetFunctionLabel(names[i])
  {
    if names == [] then [] else ["\t" + GetFunctionLabel(names[0])] + DeleteListLines(names[1..])
  }

  /** One `firebase functions:delete` command per function, naming it and its region. */
  function DeleteCommandLines(names: seq<string>): (r: seq<string>)
    ensures |r| == |names|
    ensures forall i :: 0 <= i < |names| ==>
      r[i] == "\tfirebase functions:delete " + Text(GetFunctionName(names[i])) + " --region " + Text(GetRegion(names[i]))
  {
    if names == [] then []
    else ["\tfirebase functions:delete " + Text(GetFunctionName(names[0])) + " --region " + Text(GetRegion(names[0]))] +
         DeleteCommandLines(names[1..])
  }

  /** The error that aborts non-interactive deletions: the functions, and the commands that delete them by hand. */
  function AbortError(names: seq<string>): ReleaseError
  {
    DeletionAborted(Join(DeleteListLines(names), "\n"), Join(DeleteCommandLines(names), "\n"))
  }

  /**
   * Whether deletions go ahead: nothing to delete asks nothing; in
   * non-interactive mode without `--force` the release aborts; `--force`
   * proceeds; otherwise the user's answer decides.
   */
  function ProceedWithDeletes(toDelete: seq<string>, nonInteractive: bool, force: bool, confirm: bool): (r: Result<bool, ReleaseError>)
    ensures toDelete == [] ==> r == Ok(false)
    ensures r.Err? <==> toDelete != [] && nonInteractive && !force
    ensures r.Err? ==> r.error == AbortError(toDelete)
    ensures r == Ok(true) <==> toDelete != [] && (force || (!nonInteractive && confirm))
  {
    if |toDelete| == 0 then Ok(false)
    else if nonInteractive && !force then Err(AbortError(toDelete))
    else if force then Ok(true)
    else Ok(confirm)
  }

  /** The user is asked only when there is something to delete, the mode is interactive and there is no `--force`. */
  predicate Prompted(toDelete: seq<string>, nonInteractive: bool, force: bool)
  {
    toDelete != [] && !nonInteractive && !force
  }

  /** Without a prompt the answer does not matter. */
  lemma AnswerMattersOnlyWhenPrompted(toDelete: seq<string>, nonInteractive: bool, force: bool)
    requires !Prompted(toDelete, nonInteractive, force)
    ensures ProceedWithDeletes(toDelete, nonInteractive, force, true) == ProceedWithDeletes(toDelete, nonInteractive, force, false)
  {
  }

  // ------------------------------------------------------------------ plan

  /** The names a release acts on, computed from the uploaded records and the project's functions. */
  datatype ReleasePlan = ReleasePlan(
    infos: seq<FunctionInfo>,     // the records after the scheduled rewrite
    creates: seq<string>,
    updates: seq<string>,
    deletes: seq<string>,
    scheduled: seq<string>,       // existing functions labelled as scheduled
    deleteRelease: seq<string>)   // the scope deletions are restricted to

  /** The names computed before anything is queued. */
  function PlanOf(records: seq<FunctionInfo>, projectId: string, storageBucket: Option<string>, only: Option<string>,
                  existing: seq<ExistingFunction>, check: Json -> bool): ReleasePlan
  {
    var infos := RewriteAll(records);
    var uploaded := Names(infos);
    var groups := GetFilterGroups(only);
    var existingNames := ExistingNames(existing);
    var releaseNames := GetReleaseNames(uploaded, existingNames, groups);
    var deleteRelease := DeleteReleaseNames(releaseNames, existingNames, groups);
    ReleasePlan(
      infos,
      CreateNames(uploaded, existingNames, releaseNames),
      UpdateNames(uploaded, existingNames, releaseNames),
      DeleteNames(ExistingNames(ManagedFunctions(existing, projectId, storageBucket, check)), uploaded, deleteRelease),
      ExistingNames(ScheduledFunctions(existing)),
      deleteRelease)
  }

  /**
   * The plan's lists are duplicate-free and pairwise disjoint, every name
   * to create or update has an uploaded record, every name to delete is an
   * existing managed function, and every function to update exists.
   */
  lemma {:induction false} PlanSound(records: seq<FunctionInfo>, projectId: string, storageBucket: Option<string>, only: Option<string>,
                                     existing: seq<ExistingFunction>, check: Json -> bool, x: string)
    ensures var p := PlanOf(records, projectId, storageBucket, only, existing, check);
      NoDups(p.creates) && NoDups(p.updates) && NoDups(p.deletes) &&
      !(x in p.creates && x in p.updates) && !(x in p.deletes && (x in p.creates || x in p.updates)) &&
      (x in p.creates || x in p.updates ==> FindInfo(p.infos, x).Some?) &&
      (x in p.updates ==> FindExisting(existing, x).Some?) &&
      (x in p.deletes ==> exists f :: f in existing && f.name == x && Managed(f, projectId, storageBucket, check))
  {
    var p := PlanOf(records, projectId, storageBucket, only, existing, check);
    var uploaded := Names(p.infos);
    var existingNames := ExistingNames(existing);
    var groups := GetFilterGroups(only);
    var releaseNames := GetReleaseNames(uploaded, existingNames, groups);
    var managed := ManagedFunctions(existing, projectId, storageBucket, check);
    ReleaseSplit(uploaded, existingNames, releaseNames, ExistingNames(managed), p.deleteRelease, x);
    NamesOfFiltered(existing, managed, x);
  }

  /** `functionsInDeploy`: the records whose schedules are synchronised. */
  function FunctionsInDeploy(infos: seq<FunctionInfo>, groups: seq<seq<string>>, deleteRelease: seq<string>): (r: seq<FunctionInfo>)
    ensures forall f :: f in r <==> f in infos && (|groups| > 0 ==> f.name in deleteRelease)
    decreases |infos|
  {
    if infos == [] then []
    else
      var rest := FunctionsInDeploy(infos[..|infos| - 1], groups, deleteRelease);
      var f := infos[|infos| - 1];
      assert forall g :: g in infos <==> g in infos[..|infos| - 1] || g == f by {
        assert infos == infos[..|infos| - 1] + [f];
      }
      if |groups| > 0 && f.name !in deleteRelease then rest else rest + [f]
  }

  // ----------------------------------------------------------------- report

  /** What `printFail` records for each operation that failed while polling: `getFunctionName(op.func)`. */
  function PollFailureNames(funcs: seq<string>): (r: seq<string>)
    ensures |r| == |funcs|
    ensures forall i :: 0 <= i < |r| ==> r[i] == Text(GetFunctionName(funcs[i]))
    decreases |funcs|
  {
    if funcs == [] then []
    else
      var init := funcs[..|funcs| - 1];
      assert forall j :: 0 <= j < |init| ==> init[j] == funcs[j];
      PollFailureNames(init) + [Text(GetFunctionName(funcs[|funcs| - 1]))]
  }

  lemma PollFailureNamesSnoc(funcs: seq<string>, i: nat)
    requires i < |funcs|
    ensures PollFailureNames(funcs[..i + 1]) == PollFailureNames(funcs[..i]) + [Text(GetFunctionName(funcs[i]))]
  {
    assert funcs[..i + 1][..i] == funcs[..i];
  }

  /** `_.get(error, "context.function", "")` for each rejected call. */
  function FailedNames(failedFunctions: seq<Option<string>>): (r: seq<string>)
    ensures |r| == |failedFunctions|
    ensures forall i :: 0 <= i < |r| ==> r[i] == failedFunctions[i].GetOr("")
  {
    if failedFunctions == [] then [] else [failedFunctions[0].GetOr("")] + FailedNames(failedFunctions[1..])
  }

  /** `firebase deploy --only functions:a,functions:b`. */
  function RedeployCommand(failed: seq<string>): string
  {
    "firebase deploy --only " + Join(FunctionsTargets(failed), ",")
  }

  function FunctionsTargets(names: seq<string>): (r: seq<string>)
    ensures |r| == |names|
    ensures forall i :: 0 <= i < |names| ==> r[i] == "functions:" + names[i]
  {
    if names == [] then [] else ["functions:" + names[0]] + FunctionsTargets(names[1..])
  }

  /**
   * What queueing plan `p` does to the deployments and how it ends: it
   * queues the creations in order, then the updates in order up to the
   * first legacy trigger, and, when every update was queued and the
   * deletion guard lets them, the deletions in order. It fails at a legacy
   * trigger, or with the deletion guard's error, and succeeds otherwise.
   */
  ghost predicate Queued(before: seq<Deployment>, after: seq<Deployment>, r: Outcome<ReleaseError>, p: ReleasePlan,
                         existing: seq<ExistingFunction>, runtimeChoice: Option<string>, nonInteractive: bool, force: bool, confirm: bool)
  {
    var ups := UpdateOps(p.infos, existing, p.updates, runtimeChoice);
    var k := FirstErr(ups);
    var proceed := ProceedWithDeletes(p.deletes, nonInteractive, force, confirm);
    AllUploaded(p.infos, p.creates) &&
    after == before + CreateOps(p.infos, p.creates, runtimeChoice) + OksBefore(ups)
               + (if k == |p.updates| && proceed == Ok(true) then DeleteOps(p.deletes, p.scheduled) else []) &&
    (k < |p.updates| ==> r == Fail(LegacyTrigger(GetFunctionName(p.updates[k])))) &&
    (k == |p.updates| && proceed.Err? ==> r == Fail(proceed.error)) &&
    (k == |p.updates| && proceed.Ok? ==> r.Pass?)
  }

  /**
   * The update loop on its own: the updates in order up to the first legacy
   * trigger, and that trigger's error.
   */
  method UpdatesUntilLegacy(infos: seq<FunctionInfo>, existing: seq<ExistingFunction>, names: seq<string>, runtimeChoice: Option<string>)
    returns (added: seq<Deployment>, r: Outcome<ReleaseError>)
    ensures var rs := UpdateOps(infos, existing, names, runtimeChoice);
      |added| == FirstErr(rs) &&
      (forall j :: 0 <= j < FirstErr(rs) ==> Ok(added[j]) == rs[j]) &&
      (r.Pass? <==> FirstErr(rs) == |names|) &&
      (r.Fail? ==> Err(r.error) == rs[FirstErr(rs)])
    ensures added == OksBefore(UpdateOps(infos, existing, names, runtimeChoice))
  {
    ghost var rs := UpdateOps(infos, existing, names, runtimeChoice);
    added := [];
    var i := 0;
    while i < |names|
      invariant 0 <= i <= |names|
      invariant |added| == i && forall j :: 0 <= j < i ==> rs[j] == Ok(added[j])
    {
      var op := UpdateOp(infos, existing, names[i], runtimeChoice);
      UpdateOpsAt(infos, existing, names, runtimeChoice, i);
      if op.Err? {
        FirstErrAt(rs, i);
        OksBeforeIs(rs, added);
        return added, Fail(op.error);
      }
      assert rs[i] == Ok(op.value);
      var next := added + [op.value];
      assert forall j :: 0 <= j < i ==> next[j] == added[j];
      added := next;
      i := i + 1;
    }
    FirstErrAt(rs, i);
    OksBeforeIs(rs, added);
    r := Pass;
  }

  /** The module state the release pushes to. */
  class ReleaseState {
    var deployments: seq<Deployment>
    var failedDeployments: seq<string>

    constructor()
      ensures deployments == [] && failedDeployments == []
    {
      deployments := [];
      failedDeployments := [];
    }

    /** The creation loop: one queued operation per name, in order. */
    method QueueCreates(infos: seq<FunctionInfo>, names: seq<string>, runtimeChoice: Option<string>)
      requires AllUploaded(infos, names)
      modifies this
      ensures |deployments| == |old(deployments)| + |names|
      ensures deployments[..|old(deployments)|] == old(deployments)
      ensures forall j :: 0 <= j < |names| ==> deployments[|old(deployments)| + j] == CreateOp(infos, names[j], runtimeChoice)
      ensures deployments == old(deployments) + CreateOps(infos, names, runtimeChoice)
      ensures failedDeployments == old(failedDeployments)
    {
      ghost var ops := CreateOps(infos, names, runtimeChoice);
      var queued := deployments;
      for i := 0 to |names|
        invariant queued == old(deployments) + ops[..i]
      {
        var op := CreateOp(infos, names[i], runtimeChoice);
        assert ops[..i + 1] == ops[..i] + [op];
        queued := queued + [op];
      }
      assert ops[..|names|] == ops;
      deployments := queued;
    }

    /**
     * The update loop: queues the updates in order up to the first legacy
     * trigger, and throws there.
     */
    method QueueUpdates(infos: seq<FunctionInfo>, existing: seq<ExistingFunction>, names: seq<string>, runtimeChoice: Option<string>)
      returns (r: Outcome<ReleaseError>)
      modifies this
      ensures var rs := UpdateOps(infos, existing, names, runtimeChoice);
        |deployments| == |old(deployments)| + FirstErr(rs) &&
        deployments[..|old(deployments)|] == old(deployments) &&
        (forall j :: 0 <= j < FirstErr(rs) ==> Ok(deployments[|old(deployments)| + j]) == rs[j]) &&
        (r.Pass? <==> FirstErr(rs) == |names|) &&
        (r.Fail? ==> Err(r.error) == rs[FirstErr(rs)])
      ensures deployments == old(deployments) + OksBefore(UpdateOps(infos, existing, names, runtimeChoice))
      ensures failedDeployments == old(failedDeployments)
    {
      var added;
      added, r := UpdatesUntilLegacy(infos, existing, names, runtimeChoice);
      deployments := deployments + added;
    }

    /** The deletion loop, run once the deletions may proceed. */
    method QueueDeletes(names: seq<string>, scheduled: seq<string>)
      modifies this
      ensures |deployments| == |old(deployments)| + |names|
      ensures deployments[..|old(deployments)|] == old(deployments)
      ensures forall j :: 0 <= j < |names| ==> deployments[|old(deployments)| + j] == DeleteOp(names[j], scheduled)
      ensures deployments == old(deployments) + DeleteOps(names, scheduled)
      ensures failedDeployments == old(failedDeployments)
    {
      ghost var added: seq<Deployment> := [];
      for i := 0 to |names|
        invariant deployments == old(deployments) + added
        invariant |added| == i && forall j :: 0 <= j < i ==> added[j] == DeleteOp(names[j], scheduled)
        invariant failedDeployments == old(failedDeployments)
      {
        var op := DeleteOp(names[i], scheduled);
        deployments := deployments + [op];
        added := added + [op];
      }
      assert added == DeleteOps(names, scheduled);
    }

    /**
     * The release up to the calls: nothing without a functions config;
     * otherwise the records are built (filling in default regions in
     * place), the names planned, and the plan queued.
     */
    method Run(hasFunctionsConfig: bool, triggers: seq<ParsedTrigger>, projectId: string, storageBucket: Option<string>,
               only: Option<string>, existing: seq<ExistingFunction>, check: Json -> bool, runtimeChoice: Option<string>,
               nonInteractive: bool, force: bool, confirm: bool)
      returns (r: Outcome<ReleaseError>)
      modifies this, set t | t in triggers
      ensures failedDeployments == old(failedDeployments)
      ensures !hasFunctionsConfig ==> r.Pass? && deployments == old(deployments)
      ensures hasFunctionsConfig ==>
        Queued(old(deployments), deployments, r,
               PlanOf(FunctionsInfo(old(Snapshot(triggers)), projectId), projectId, storageBucket, only, existing, check),
               existing, runtimeChoice, nonInteractive, force, confirm)
    {
      if !hasFunctionsConfig {
        return Pass;
      }
      var records := GetFunctionsInfo(triggers, projectId);
      var p := PlanOf(records, projectId, storageBucket, only, existing, check);
      forall x | x in p.creates || x in p.updates
        ensures FindInfo(p.infos, x).Some?
      {
        PlanSound(records, projectId, storageBucket, only, existing, check, x);
      }
      r := Execute(p, existing, runtimeChoice, nonInteractive, force, confirm);
    }

    /**
     * The queueing of a plan: the creations, then the updates up to the
     * first legacy trigger, and then, when the deletion guard lets them,
     * the deletions.
     */
    method Execute(p: ReleasePlan, existing: seq<ExistingFunction>, runtimeChoice: Option<string>,
                   nonInteractive: bool, force: bool, confirm: bool)
      returns (r: Outcome<ReleaseError>)
      requires forall x :: x in p.creates || x in p.updates ==> FindInfo(p.infos, x).Some?
      modifies this
      ensures failedDeployments == old(failedDeployments)
      ensures Queued(old(deployments), deployments, r, p, existing, runtimeChoice, nonInteractive, force, confirm)
    {
      QueueCreates(p.infos, p.creates, runtimeChoice);
      r := QueueUpdates(p.infos, existing, p.updates, runtimeChoice);
      ghost var queued := deployments;
      assert queued + [] == queued;
      if FirstErr(UpdateOps(p.infos, existing, p.updates, runtimeChoice)) < |p.updates| {
        FirstUpdateErrorIsLegacy(p.infos, existing, p.updates, runtimeChoice);
      }
      if r.Fail? {
        return;
      }
      var proceed := ProceedWithDeletes(p.deletes, nonInteractive, force, confirm);
      if proceed.Err? {
        return Fail(proceed.error);
      }
      if proceed.value {
        QueueDeletes(p.deletes, p.scheduled);
      }
    }

    /** `printFail(op)`: the function's short name is added to the failed list. */
    method PrintFail(func: string)
      modifies this
      ensures failedDeployments == old(failedDeployments) + [Text(GetFunctionName(func))]
      ensures deployments == old(deployments)
    {
      failedDeployments := failedDeployments + [Text(GetFunctionName(func))];
    }

    /** The polling's failures, each handed to `printFail` in turn. */
    method PollFailures(pollFailures: seq<string>)
      modifies this
      ensures failedDeployments == old(failedDeployments) + PollFailureNames(pollFailures)
      ensures deployments == old(deployments)
    {
      for i := 0 to |pollFailures|
        invariant failedDeployments == old(failedDeployments) + PollFailureNames(pollFailures[..i])
        invariant deployments == old(deployments)
      {
        PollFailureNamesSnoc(pollFailures, i);
        PrintFail(pollFailures[i]);
      }
      assert pollFailures[..|pollFailures|] == pollFailures;
    }

    /** `printTooManyOps(projectId)`: past the polling limit the deployments are forgotten. */
    method PrintTooManyOps()
      modifies this
      ensures deployments == []
      ensures failedDeployments == old(failedDeployments)
    {
      deployments := [];
    }

    /**
     * The end of the release: the failed names (the `context.function` of
     * each rejected call, `""` when it has none) are stored; `polled`
     * operations, the successful calls, are then handed to `pollDeploys`.
     * Above its limit it calls `printTooManyOps`, which empties the
     * deployments, and polls nothing; otherwise each operation that fails is
     * handed to `printFail`, in the order given by `pollFailures`, the failed
     * operations' full function names. The list is sorted in place and
     * reported; the release rejects exactly when it is not empty.
     */
    method Report(failedFunctions: seq<Option<string>>, polled: nat, pollFailures: seq<string>)
      returns (r: Outcome<ReleaseError>, command: string)
      modifies this
      ensures deployments == if PollInterval(polled).None? then [] else old(deployments)
      ensures failedDeployments == Sort(FailedNames(failedFunctions) +
        if PollInterval(polled).None? then [] else PollFailureNames(pollFailures))
      ensures r.Fail? <==> failedFunctions != [] || (polled <= 90 && pollFailures != [])
      ensures r.Fail? ==> r.error == DeployFailed && command == RedeployCommand(failedDeployments)
    {
      failedDeployments := FailedNames(failedFunctions);
      if PollInterval(polled).None? {
        PrintTooManyOps();
        assert failedDeployments == failedDeployments + [];
      } else {
        PollFailures(pollFailures);
      }
      command := "";
      if |failedDeployments| > 0 {
        failedDeployments := Sort(failedDeployments);
        command := RedeployCommand(failedDeployments);
        return Fail(DeployFailed), command;
      }
      r := Pass;
    }

  }
}
