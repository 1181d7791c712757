/**
 * The functions shell: the list of emulated functions, the URLs of the HTTPS
 * ones, the trigger lookup, and the event a shell call hands to the
 * functions runtime.
 */
module FunctionsShell {
  import opened Wrappers
  import opened EmulatorTypes
  import opened Json

  /**
   * A trigger as the functions emulator reports it. The region is what
   * `getFunctionRegion` computes in a file that is not part of this model.
   */
  datatype Trigger = Trigger(name: string, httpsTrigger: bool, eventTrigger: Option<EventTrigger>, region: string)
  datatype EventTrigger = EventTrigger(eventType: string)

  /**
   * The arguments of `getHttpFunctionUrl`; the URL text itself is built in a
   * file that is not part of this model.
   */
  datatype FunctionUrl = FunctionUrl(host: string, port: PortValue, projectId: string, name: string, region: string)

  /** The `opts` of a shell call; absent fields are `None`. */
  datatype CallOptions = CallOptions(resource: Option<Json>, params: Option<Json>, auth: Option<Json>)

  /** The event handed to the runtime. */
  datatype EventProto = EventProto(
    eventId: string, timestamp: string, eventType: string,
    resource: Option<Json>, params: Option<Json>, auth: Option<Json>, data: Json)

  datatype ShellError =
    | TriggerNotFound(name: string)    // `Could not find trigger X`
    | NotBackground(name: string)      // `Function X is not a background function`
    | ResourceTypeError                // reading `.name` of a `null` resource throws

  /** `triggers.map(t => t.name)`. */
  function TriggerNames(ts: seq<Trigger>): (r: seq<string>)
    ensures |r| == |ts| && forall i :: 0 <= i < |ts| ==> r[i] == ts[i].name
  {
    if ts == [] then [] else [ts[0].name] + TriggerNames(ts[1..])
  }

  /** The `urls` object the constructor's loop builds from the first `|ts|` triggers. */
  function UrlsOf(ts: seq<Trigger>, host: string, port: PortValue, projectId: string): map<string, FunctionUrl>
    decreases |ts|
  {
    if ts == [] then map[]
    else
      var u := UrlsOf(ts[..|ts| - 1], host, port, projectId);
      var t := ts[|ts| - 1];
      if t.httpsTrigger then u[t.name := FunctionUrl(host, port, projectId, t.name, t.region)] else u
  }

  /** Trigger `i` is the last HTTPS trigger named `n`. */
  predicate LastHttps(ts: seq<Trigger>, n: string, i: int)
  {
    0 <= i < |ts| && ts[i].httpsTrigger && ts[i].name == n &&
    forall j :: i < j < |ts| ==> !(ts[j].httpsTrigger && ts[j].name == n)
  }

  /**
   * There is a URL exactly for the names of HTTPS triggers, and it is built
   * from the last HTTPS trigger of that name.
   */
  lemma {:induction false} UrlsOfSpec(ts: seq<Trigger>, host: string, port: PortValue, projectId: string, n: string)
    ensures n in UrlsOf(ts, host, port, projectId) <==>
      exists i :: 0 <= i < |ts| && ts[i].httpsTrigger && ts[i].name == n
    ensures n in UrlsOf(ts, host, port, projectId) ==>
      exists i :: LastHttps(ts, n, i) &&
        UrlsOf(ts, host, port, projectId)[n] == FunctionUrl(host, port, projectId, n, ts[i].region)
    decreases |ts|
  {
    if ts != [] {
      var init := ts[..|ts| - 1];
      var t := ts[|ts| - 1];
      UrlsOfSpec(init, host, port, projectId, n);
      if t.httpsTrigger && t.name == n {
        assert LastHttps(ts, n, |ts| - 1);
      } else if n in UrlsOf(init, host, port, projectId) {
        var i :| LastHttps(init, n, i) &&
          UrlsOf(init, host, port, projectId)[n] == FunctionUrl(host, port, projectId, n, init[i].region);
        assert LastHttps(ts, n, i);
      } else {
        assert forall i :: 0 <= i < |init| ==> init[i] == ts[i];
      }
    }
  }

  class FunctionsEmulatorShell {
    const triggers: seq<Trigger>
    /** The trigger names, in order. */
    const emulatedFunctions: seq<string>
    /** Trigger name to the URL of its HTTPS endpoint. */
    var urls: map<string, FunctionUrl>

    /** Loads the emulator's triggers and records an URL for each HTTPS trigger. */
    constructor(triggers: seq<Trigger>, host: string, port: PortValue, projectId: string)
      ensures this.triggers == triggers
      ensures emulatedFunctions == TriggerNames(triggers)
      ensures urls == UrlsOf(triggers, host, port, projectId)
    {
      this.triggers := triggers;
      this.emulatedFunctions := TriggerNames(triggers);
      var u: map<string, FunctionUrl> := map[];
      for i := 0 to |triggers|
        invariant u == UrlsOf(triggers[..i], host, port, projectId)
      {
        assert triggers[..i + 1][..i] == triggers[..i];
        var trigger := triggers[i];
        if trigger.httpsTrigger {
          u := u[trigger.name := FunctionUrl(host, port, projectId, trigger.name, trigger.region)];
        }
      }
      assert triggers[..|triggers|] == triggers;
      this.urls := u;
    }

    /** `getTrigger(name)`: the first trigger with that name, or an error. */
    function GetTrigger(name: string): (r: Result<Trigger, ShellError>)
      ensures r.Err? <==> forall i :: 0 <= i < |triggers| ==> triggers[i].name != name
      ensures r.Err? ==> r.error == TriggerNotFound(name)
      ensures r.Ok? ==> exists i :: 0 <= i < |triggers| && triggers[i] == r.value && r.value.name == name &&
                          forall j :: 0 <= j < i ==> triggers[j].name != name
    {
      var i := FindByName(triggers, name);
      if i == |triggers| then Err(TriggerNotFound(name)) else Ok(triggers[i])
    }

    /**
     * `call(name, data, opts)`: the event the shell hands to the runtime. The
     * event id and timestamp come from `uuid` and the clock, so they are
     * parameters.
     */
    function Call(name: string, data: Json, opts: CallOptions, eventId: string, timestamp: string): (r: Result<EventProto, ShellError>)
    {
      match GetTrigger(name)
      case Err(e) => Err(e)
      case Ok(trigger) =>
        if trigger.eventTrigger.None? then Err(NotBackground(name))
        else match LiftResource(opts.resource)
          case Err(e) => Err(e)
          case Ok(resource) =>
            Ok(EventProto(eventId, timestamp, trigger.eventTrigger.value.eventType,
                          resource, opts.params, opts.auth, data))
    }
  }

  /** The index of the first trigger named `name`, or `|ts|`. */
  function FindByName(ts: seq<Trigger>, name: string): (i: nat)
    ensures i <= |ts|
    ensures forall j :: 0 <= j < i ==> ts[j].name != name
    ensures i < |ts| ==> ts[i].name == name
  {
    if ts == [] then 0
    else if ts[0].name == name then 0
    else 1 + FindByName(ts[1..], name)
  }

  /**
   * The resource of a call: an object with a truthy `name` is replaced by
   * that name; other values, and an absent resource, pass through; `null`
   * throws, as reading a property of `null` does.
   */
  function LiftResource(res: Option<Json>): (r: Result<Option<Json>, ShellError>)
    ensures r.Err? <==> res == Some(JNull)
    ensures r.Ok? && r.value != res ==>
      res.Some? && Prop(res.value, "name").Some? && Truthy(Prop(res.value, "name").value) &&
      r.value == Prop(res.value, "name")
    ensures res.Some? && res.value != JNull && Prop(res.value, "name").Some? && Truthy(Prop(res.value, "name").value) ==>
      r == Ok(Prop(res.value, "name"))
    ensures res.Some? && res.value != JNull && !(Prop(res.value, "name").Some? && Truthy(Prop(res.value, "name").value)) ==>
      r == Ok(res)
  {
    if res.None? then Ok(None)
    else if res.value.JNull? then Err(ResourceTypeError)
    else
      var n := Prop(res.value, "name");
      if n.Some? && Truthy(n.value) then Ok(n) else Ok(res)
  }

  /** Lifting a resource whose name is a string gives that string, and lifting it again changes nothing. */
  lemma LiftResourceIdempotent(props: OMaps.OMap<Json>, name: string)
    requires OMaps.Get(props, "name") == Some(JStr(name)) && name != ""
    ensures LiftResource(Some(JObj(props))) == Ok(Some(JStr(name)))
    ensures LiftResource(Some(JStr(name))) == Ok(Some(JStr(name)))
  {
  }

  /**
   * A call succeeds exactly for a background trigger and a non-null
   * resource; the event's type is the trigger's, and params, auth and data
   * are the caller's, unchanged.
   */
  lemma CallSpec(sh: FunctionsEmulatorShell, name: string, data: Json, opts: CallOptions, eventId: string, timestamp: string)
    ensures var r := sh.Call(name, data, opts, eventId, timestamp);
      (r.Ok? <==> sh.GetTrigger(name).Ok? && sh.GetTrigger(name).value.eventTrigger.Some? && opts.resource != Some(JNull)) &&
      (sh.GetTrigger(name).Err? ==> r == Err(TriggerNotFound(name))) &&
      (sh.GetTrigger(name).Ok? && sh.GetTrigger(name).value.eventTrigger.None? ==> r == Err(NotBackground(name))) &&
      (r.Ok? ==> r.value.eventType == sh.GetTrigger(name).value.eventTrigger.value.eventType &&
                 r.value.params == opts.params && r.value.auth == opts.auth && r.value.data == data &&
                 r.value.eventId == eventId && r.value.timestamp == timestamp &&
                 Ok(r.value.resource) == LiftResource(opts.resource))
  {
  }
}
