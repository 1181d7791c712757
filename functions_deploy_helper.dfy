/**
 * Helpers of the functions deploy: `--only` filter groups and the functions
 * they select, the per-region function records of a deploy, the trigger of
 * a record, the text surgery on full function names, and the polling
 * choices.
 */
module FunctionsDeployHelper {
  import opened Wrappers
  import opened Strs
  import opened Lists
  import opened Json

  // ------------------------------------------------------------ filter groups

  /** `_.last(fullName.split("/"))`. */
  function LastSegment(fullName: string): string
  {
    var parts := Split(fullName, '/');
    parts[|parts| - 1]
  }

  /**
   * `functionMatchesGroup`: the group's chunks equal the first chunks of the
   * "-"-split last path segment, that is, the group is a prefix of them.
   */
  function FunctionMatchesGroup(functionName: string, groupChunks: seq<string>): (r: bool)
    ensures r <==> groupChunks <= Split(LastSegment(functionName), '-')
  {
    var chunks := Split(LastSegment(functionName), '-');
    groupChunks == chunks[..if |groupChunks| < |chunks| then |groupChunks| else |chunks|]
  }

  /** `_.some(groups, g => functionMatchesGroup(name, g))`. */
  predicate MatchesSome(functionName: string, groups: seq<seq<string>>)
  {
    exists g :: g in groups && FunctionMatchesGroup(functionName, g)
  }

  /** An `--only` entry of the form `functions:<nonempty>`. */
  predicate IsFunctionsFilter(filter: string)
  {
    var opts := Split(filter, ':');
    opts[0] == "functions" && |opts| > 1 && opts[1] != ""
  }

  /** The group an `--only` entry names: the text between the first and second ":", split on ".". */
  function GroupOf(filter: string): seq<string>
  {
    var opts := Split(filter, ':');
    if |opts| > 1 then Split(opts[1], '.') else []
  }

  /** The groups of the `functions:` entries among `filters`, in order. */
  function FilterGroups(filters: seq<string>): (r: seq<seq<string>>)
    ensures |r| <= |filters|
    ensures forall g :: g in r <==> exists f :: f in filters && IsFunctionsFilter(f) && g == GroupOf(f)
  {
    if filters == [] then []
    else
      var rest := FilterGroups(filters[1..]);
      assert forall f :: f in filters <==> f == filters[0] || f in filters[1..] by {
        assert filters == [filters[0]] + filters[1..];
      }
      if IsFunctionsFilter(filters[0]) then [GroupOf(filters[0])] + rest else rest
  }

  /** `getFilterGroups(options)`: no groups without a truthy `--only`. */
  function GetFilterGroups(only: Option<string>): (r: seq<seq<string>>)
    ensures only.None? || only.value == "" ==> r == []
    ensures only.Some? && only.value != "" ==>
      forall g :: g in r <==> exists f :: f in Split(only.value, ',') && IsFunctionsFilter(f) && g == GroupOf(f)
  {
    if only.None? || only.value == "" then [] else FilterGroups(Split(only.value, ','))
  }

  /** `_.filter(names, n => matches some group)`. */
  function FilterMatching(names: seq<string>, groups: seq<seq<string>>): (r: seq<string>)
    ensures forall x :: x in r <==> x in names && MatchesSome(x, groups)
    ensures NoDups(names) ==> NoDups(r)
  {
    if names == [] then []
    else
      var rest := FilterMatching(names[1..], groups);
      assert forall x :: x in names <==> x == names[0] || x in names[1..] by {
        assert names == [names[0]] + names[1..];
      }
      assert NoDups(names) ==> names[0] !in names[1..] && NoDups(names[1..]) by {
        if NoDups(names) {
          forall i | 0 <= i < |names[1..]| ensures names[1..][i] != names[0] {
            assert names[1..][i] == names[i + 1];
          }
        }
      }
      if MatchesSome(names[0], groups) then [names[0]] + rest else rest
  }

  /**
   * `getReleaseNames`: without filter groups the uploaded names unchanged;
   * otherwise the names of `_.union(uploaded, existing)` that match a group.
   */
  function GetReleaseNames(uploadNames: seq<string>, existingNames: seq<string>, groups: seq<seq<string>>): (r: seq<string>)
    ensures groups == [] ==> r == uploadNames
    ensures groups != [] ==> NoDups(r)
    ensures groups != [] ==>
      forall x :: x in r <==> (x in uploadNames || x in existingNames) && MatchesSome(x, groups)
  {
    if groups == [] then uploadNames
    else FilterMatching(Uniq(uploadNames + existingNames), groups)
  }

  // ------------------------------------------------------------- full names

  const DefaultRegion: string := "us-central1"

  /** `["projects", p, "locations", r, "functions", n].join("/")`. */
  function FullName(projectId: string, region: string, name: string): string
  {
    Join(["projects", projectId, "locations", region, "functions", name], "/")
  }

  /** Segment `i` of `fullName.split("/")`, `undefined` past the end. */
  function Segment(fullName: string, i: nat): Option<string>
  {
    var parts := Split(fullName, '/');
    if i < |parts| then Some(parts[i]) else None
  }

  /** A possibly `undefined` string as a template literal renders it. */
  function Text(s: Option<string>): string
  {
    if s.Some? then s.value else "undefined"
  }

  /** `getFunctionName`: segment 5. */
  function GetFunctionName(fullName: string): Option<string>
  {
    Segment(fullName, 5)
  }

  /** `getRegion`: segment 3. */
  function GetRegion(fullName: string): Option<string>
  {
    Segment(fullName, 3)
  }

  /** `getFunctionLabel`: `name(region)`. */
  function GetFunctionLabel(fullName: string): string
  {
    Text(GetFunctionName(fullName)) + "(" + Text(GetRegion(fullName)) + ")"
  }

  /** `getScheduleName`: the Cloud Scheduler job of a scheduled function. */
  function GetScheduleName(fullName: string, appEngineLocation: string): string
  {
    Text(Segment(fullName, 0)) + "/" + Text(Segment(fullName, 1)) + "/" + Text(Segment(fullName, 2)) + "/" +
    appEngineLocation + "/jobs/firebase-schedule-" + Text(Segment(fullName, 5)) + "-" + Text(Segment(fullName, 3))
  }

  /** `getTopicName`: the Pub/Sub topic of a scheduled function. */
  function GetTopicName(fullName: string): string
  {
    Text(Segment(fullName, 0)) + "/" + Text(Segment(fullName, 1)) + "/topics/firebase-schedule-" +
    Text(Segment(fullName, 5)) + "-" + Text(Segment(fullName, 3))
  }

  /** The segments of a full name built from slash-free parts are those parts. */
  lemma {:induction false} FullNameSegments(projectId: string, region: string, name: string)
    requires '/' !in projectId && '/' !in region && '/' !in name
    ensures Split(FullName(projectId, region, name), '/') == ["projects", projectId, "locations", region, "functions", name]
  {
    var parts := ["projects", projectId, "locations", region, "functions", name];
    assert Clean(parts, '/') by {
      assert '/' !in "projects" && '/' !in "locations" && '/' !in "functions";
    }
    SplitJoin(parts, '/');
  }

  /** `getFunctionName`, `getRegion` and `getFunctionLabel` invert `FullName`. */
  lemma {:induction false} FullNameRoundTrip(projectId: string, region: string, name: string)
    requires '/' !in projectId && '/' !in region && '/' !in name
    ensures GetFunctionName(FullName(projectId, region, name)) == Some(name)
    ensures GetRegion(FullName(projectId, region, name)) == Some(region)
    ensures LastSegment(FullName(projectId, region, name)) == name
    ensures GetFunctionLabel(FullName(projectId, region, name)) == name + "(" + region + ")"
  {
    FullNameSegments(projectId, region, name);
  }

  /**
   * The schedule and topic names of a deployed function are built from its
   * project, its function name and its region.
   */
  lemma {:induction false} ScheduleAndTopicNames(projectId: string, region: string, name: string, appEngineLocation: string)
    requires '/' !in projectId && '/' !in region && '/' !in name
    ensures GetScheduleName(FullName(projectId, region, name), appEngineLocation) ==
      "projects" + "/" + projectId + "/" + "locations" + "/" + appEngineLocation + "/jobs/firebase-schedule-" + name + "-" + region
    ensures GetTopicName(FullName(projectId, region, name)) ==
      "projects" + "/" + projectId + "/topics/firebase-schedule-" + name + "-" + region
  {
    FullNameSegments(projectId, region, name);
  }

  /** A group selects a deployed function exactly when it is a prefix of the function's "-"-chunks. */
  lemma MatchesFullName(projectId: string, region: string, name: string, group: seq<string>)
    requires '/' !in projectId && '/' !in region && '/' !in name
    ensures FunctionMatchesGroup(FullName(projectId, region, name), group) <==> group <= Split(name, '-')
    ensures FunctionMatchesGroup(FullName(projectId, region, name), Split(name, '-'))
  {
    FullNameRoundTrip(projectId, region, name);
  }

  // ----------------------------------------------------- per-region records

  datatype EventTrigger = EventTrigger(eventType: string, resource: string)

  /** The properties of a parsed trigger other than its name and regions. */
  datatype TriggerBody = TriggerBody(
    entryPoint: string,
    httpsTrigger: Option<Json>,
    eventTrigger: Option<EventTrigger>,
    schedule: Option<Json>,
    labels: Option<Json>,
    availableMemoryMb: Option<Json>,
    timeout: Option<Json>)

  /** A trigger parsed from the functions source; `regions` is filled in place. */
  class ParsedTrigger {
    const name: string
    var regions: Option<seq<string>>
    const body: TriggerBody

    constructor(name: string, regions: Option<seq<string>>, body: TriggerBody)
      ensures this.name == name && this.regions == regions && this.body == body
    {
      this.name := name;
      this.regions := regions;
      this.body := body;
    }
  }

  /** A parsed trigger's state, as a value. */
  datatype TriggerData = TriggerData(name: string, regions: Option<seq<string>>, body: TriggerBody)

  /** One record of `getFunctionsInfo`: the trigger without `regions`, named by its full name. */
  datatype FunctionInfo = FunctionInfo(name: string, body: TriggerBody)

  /** The current state of the triggers. */
  function Snapshot(triggers: seq<ParsedTrigger>): (r: seq<TriggerData>)
    reads set t | t in triggers
    ensures |r| == |triggers|
    ensures forall k :: 0 <= k < |triggers| ==>
      r[k] == TriggerData(triggers[k].name, triggers[k].regions, triggers[k].body)
  {
    if triggers == [] then []
    else [TriggerData(triggers[0].name, triggers[0].regions, triggers[0].body)] + Snapshot(triggers[1..])
  }

  /** The regions of a trigger once `getFunctionsInfo` has defaulted them. */
  function Regions(regions: Option<seq<string>>): seq<string>
  {
    if regions.None? then [DefaultRegion] else regions.value
  }

  /** The record of the trigger `name` in `region`. */
  function Record(projectId: string, region: string, name: string, body: TriggerBody): FunctionInfo
  {
    FunctionInfo(FullName(projectId, region, name), body)
  }

  /** The records of one trigger over `regions`, in region order. */
  function RegionRecords(projectId: string, name: string, body: TriggerBody, regions: seq<string>): (r: seq<FunctionInfo>)
    ensures |r| == |regions|
    ensures forall j :: 0 <= j < |regions| ==> r[j] == Record(projectId, regions[j], name, body)
  {
    if regions == [] then []
    else RegionRecords(projectId, name, body, regions[..|regions| - 1]) + [Record(projectId, regions[|regions| - 1], name, body)]
  }

  /** What `getFunctionsInfo` returns for triggers in the state `ts`. */
  function FunctionsInfo(ts: seq<TriggerData>, projectId: string): seq<FunctionInfo>
  {
    if ts == [] then []
    else
      var t := ts[|ts| - 1];
      FunctionsInfo(ts[..|ts| - 1], projectId) + RegionRecords(projectId, t.name, t.body, Regions(t.regions))
  }

  /** The number of records: the sum over the triggers of their (defaulted) region counts. */
  function RecordCount(ts: seq<TriggerData>): nat
  {
    if ts == [] then 0 else RecordCount(ts[..|ts| - 1]) + |Regions(ts[|ts| - 1].regions)|
  }

  /** `getFunctionsInfo` emits exactly one record per trigger and (defaulted) region. */
  lemma {:induction false} FunctionsInfoCount(ts: seq<TriggerData>, projectId: string)
    ensures |FunctionsInfo(ts, projectId)| == RecordCount(ts)
    decreases |ts|
  {
    if ts != [] {
      FunctionsInfoCount(ts[..|ts| - 1], projectId);
    }
  }

  /** Every record is some trigger's record in one of its regions. */
  lemma {:induction false} FunctionsInfoSound(ts: seq<TriggerData>, projectId: string, e: FunctionInfo)
    requires e in FunctionsInfo(ts, projectId)
    ensures exists k, region :: 0 <= k < |ts| && region in Regions(ts[k].regions) && e == Record(projectId, region, ts[k].name, ts[k].body)
    decreases |ts|
  {
    var init := ts[..|ts| - 1];
    var t := ts[|ts| - 1];
    var recs := RegionRecords(projectId, t.name, t.body, Regions(t.regions));
    if e in recs {
      var j :| 0 <= j < |recs| && recs[j] == e;
      assert Regions(t.regions)[j] in Regions(ts[|ts| - 1].regions);
    } else {
      FunctionsInfoSound(init, projectId, e);
      var k, region :| 0 <= k < |init| && region in Regions(init[k].regions) && e == Record(projectId, region, init[k].name, init[k].body);
      assert init[k] == ts[k];
    }
  }

  /** Every trigger has its record in each of its (defaulted) regions; one without regions is deployed to us-central1. */
  lemma {:induction false} FunctionsInfoComplete(ts: seq<TriggerData>, projectId: string, k: nat, region: string)
    requires k < |ts| && region in Regions(ts[k].regions)
    ensures Record(projectId, region, ts[k].name, ts[k].body) in FunctionsInfo(ts, projectId)
    decreases |ts|
  {
    var init := ts[..|ts| - 1];
    var t := ts[|ts| - 1];
    if k < |init| {
      assert init[k] == ts[k];
      FunctionsInfoComplete(init, projectId, k, region);
    } else {
      var j :| 0 <= j < |Regions(t.regions)| && Regions(t.regions)[j] == region;
      assert RegionRecords(projectId, t.name, t.body, Regions(t.regions))[j] == Record(projectId, region, ts[k].name, ts[k].body);
    }
  }

  /** The first `i` triggers have their regions defaulted; the others hold their first or their defaulted regions. */
  ghost predicate DefaultedUpTo(triggers: seq<ParsedTrigger>, s0: seq<TriggerData>, i: nat)
    requires i <= |triggers| == |s0|
    reads set t | t in triggers
  {
    (forall k :: 0 <= k < i ==> triggers[k].regions == Some(Regions(s0[k].regions))) &&
    (forall k :: i <= k < |triggers| ==>
       triggers[k].regions == s0[k].regions || triggers[k].regions == Some(Regions(s0[k].regions)))
  }

  /** `s0` gives one trigger the same regions wherever it occurs. */
  ghost predicate Consistent(triggers: seq<ParsedTrigger>, s0: seq<TriggerData>)
    requires |triggers| == |s0|
  {
    forall k, m :: 0 <= k < |triggers| && 0 <= m < |triggers| && triggers[k] == triggers[m] ==>
      s0[k].regions == s0[m].regions
  }

  /** `trigger.regions` defaulted in place, for trigger `i`. */
  method DefaultRegions(triggers: seq<ParsedTrigger>, ghost s0: seq<TriggerData>, i: nat) returns (regions: seq<string>)
    requires i < |triggers| == |s0| && Consistent(triggers, s0) && DefaultedUpTo(triggers, s0, i)
    modifies triggers[i]
    ensures DefaultedUpTo(triggers, s0, i + 1)
    ensures regions == Regions(s0[i].regions)
  {
    var trigger := triggers[i];
    if trigger.regions.None? {
      trigger.regions := Some([DefaultRegion]);
    }
    regions := trigger.regions.value;
  }

  /** The inner loop: one record per region of a trigger. */
  method RecordsOf(name: string, body: TriggerBody, regions: seq<string>, projectId: string) returns (recs: seq<FunctionInfo>)
    ensures recs == RegionRecords(projectId, name, body, regions)
  {
    recs := [];
    for j := 0 to |regions|
      invariant recs == RegionRecords(projectId, name, body, regions[..j])
    {
      assert regions[..j + 1][..j] == regions[..j];
      recs := recs + [Record(projectId, regions[j], name, body)];
    }
    assert regions[..|regions|] == regions;
  }

  /**
   * `getFunctionsInfo`: default each trigger's missing regions to
   * us-central1, in place, and emit one record per trigger and region.
   */
  method GetFunctionsInfo(triggers: seq<ParsedTrigger>, projectId: string) returns (info: seq<FunctionInfo>)
    modifies set t | t in triggers
    ensures info == FunctionsInfo(old(Snapshot(triggers)), projectId)
    ensures forall t :: t in triggers ==> t.regions == Some(Regions(old(t.regions)))
  {
    ghost var s0 := Snapshot(triggers);
    assert Consistent(triggers, s0);
    info := [];
    for i := 0 to |triggers|
      invariant Consistent(triggers, s0)
      invariant info == FunctionsInfo(s0[..i], projectId)
      invariant DefaultedUpTo(triggers, s0, i)
    {
      var regions := DefaultRegions(triggers, s0, i);
      var recs := RecordsOf(triggers[i].name, triggers[i].body, regions, projectId);
      assert s0[..i + 1][..i] == s0[..i];
      assert FunctionsInfo(s0[..i + 1], projectId) == info + recs;
      info := info + recs;
    }
    assert s0[..|triggers|] == s0;
  }

  // ---------------------------------------------------------------- triggers

  /** The value `getFunctionTrigger` returns. */
  datatype FunctionTrigger =
    | HttpsTrigger(https: Json)              // `{httpsTrigger}`
    | EventTriggerOf(event: EventTrigger)    // `{eventTrigger}`
    | UnknownTrigger                         // a `FirebaseError`, returned rather than thrown

  /** `getFunctionTrigger`: a truthy `httpsTrigger` wins, then an `eventTrigger` object. */
  function GetFunctionTrigger(body: TriggerBody): (r: FunctionTrigger)
    ensures r.HttpsTrigger? <==> body.httpsTrigger.Some? && Truthy(body.httpsTrigger.value)
    ensures r.HttpsTrigger? ==> r.https == body.httpsTrigger.value
    ensures r.EventTriggerOf? <==> !r.HttpsTrigger? && body.eventTrigger.Some?
    ensures r.EventTriggerOf? ==> r.event == body.eventTrigger.value
  {
    if body.httpsTrigger.Some? && Truthy(body.httpsTrigger.value) then HttpsTrigger(body.httpsTrigger.value)
    else if body.eventTrigger.Some? then EventTriggerOf(body.eventTrigger.value)
    else UnknownTrigger
  }

  // ----------------------------------------------------------------- polling

  /** `pollDeploys`' choice: no polling above 90 operations, else the poll interval in milliseconds. */
  function PollInterval(operations: nat): (r: Option<nat>)
    ensures r.None? <==> operations > 90
    ensures r.Some? ==> r.value in {2000, 5000, 10000}
  {
    if operations > 90 then None
    else if operations > 40 then Some(10 * 1000)
    else if operations > 15 then Some(5 * 1000)
    else Some(2 * 1000)
  }

  /** More operations never poll more often; the tiers start above 15, 40 and 90 operations. */
  lemma PollIntervalMonotone(n: nat, m: nat)
    requires n <= m <= 90
    ensures PollInterval(n).Some? && PollInterval(m).Some?
    ensures PollInterval(n).value <= PollInterval(m).value
    ensures PollInterval(m).value == 2000 <==> m <= 15
    ensures PollInterval(m).value == 10000 <==> m > 40
  {
  }

  /** The error codes a failed operation is retried on. */
  const RetryableCodes: seq<int> := [1, 4, 10, 14]

  /** `pollDeploys`' retry condition on an operation's error code (`undefined` is `None`). */
  function RetryCondition(code: Option<int>): (r: bool)
    ensures r <==> code.Some? && code.value in {1, 4, 10, 14}
  {
    code.Some? && code.value in RetryableCodes
  }

  /** `getDefaultRuntime`. */
  const DefaultRuntime: string := "nodejs6"
}
