/**
 * The Realtime Database emulator wrapper: its address with fallbacks, its
 * name, the condition under which it watches a rules file, and the contract
 * of a rules push to the running emulator.
 */
module DatabaseEmulator {
  import opened Wrappers
  import opened Strs
  import opened EmulatorTypes
  import opened Json
  import Constants

  /** `DATABASE_EMULATOR_ENV`. */
  const DatabaseEmulatorEnv: string := "FIREBASE_DATABASE_EMULATOR_HOST"

  /** `getName()`. */
  const DatabaseName: Emulator := Database

  /** `getInfo()`: a falsy host or port falls back to "localhost" and 9000. */
  function GetInfo(args: EmulatorArgs): (a: Address)
    ensures a.host != "" && a.port.Truthy()
    ensures a.host == (if args.host.Some? && args.host.value != "" then args.host.value else "localhost")
    ensures a.port == (if args.port.Some? && args.port.value.Truthy() then args.port.value else PortNum(9000))
  {
    var host := if args.host.Some? && args.host.value != "" then args.host.value else Constants.GetDefaultHost(Database);
    var port := if args.port.Some? && args.port.value.Truthy() then args.port.value else PortNum(Constants.DefaultPort(Database));
    Address(host, port)
  }

  /** An address the database emulator was given is reported as is. */
  lemma GetInfoKeepsGiven(host: string, port: int, args: EmulatorArgs)
    requires host != "" && port != 0
    requires args.host == Some(host) && args.port == Some(PortNum(port))
    ensures GetInfo(args) == Address(host, PortNum(port))
  {
  }

  /** `start` watches `args.rules` iff both the rules path and the project id are set. */
  function RulesWatchPath(args: EmulatorArgs): (r: Option<string>)
    ensures r.Some? <==> (args.rules.Some? && args.rules.value != "" && args.projectId.Some? && args.projectId.value != "")
    ensures r.Some? ==> args.rules == Some(r.value)
  {
    if args.rules.Some? && args.rules.value != "" && args.projectId.Some? && args.projectId.value != ""
    then Some(args.rules.value)
    else None
  }

  /** `String(port)` as a template literal renders it. */
  function PortText(p: PortValue): string
  {
    match p
    case PortNum(n) => IntToString(n)
    case NaN => "NaN"
  }

  /** `String(projectId)`, with an absent id rendered as `undefined`. */
  function ProjectText(projectId: Option<string>): string
  {
    match projectId
    case Some(p) => p
    case None => "undefined"
  }

  /** An HTTP request as handed to the transport. */
  datatype HttpRequest = HttpRequest(
    httpMethod: string, uri: string, headers: seq<(string, string)>, body: string)

  /**
   * The PUT of new rules, authorised as the owner, to the rules settings of
   * the emulator's own address, in the namespace named after the project.
   */
  function RulesRequest(args: EmulatorArgs, content: string): (r: HttpRequest)
    ensures r.httpMethod == "PUT" && r.body == content
    ensures r.headers == [("Authorization", "Bearer owner")]
    ensures r.uri == "http://" + GetInfo(args).host + ":" + PortText(GetInfo(args).port)
                     + "/.settings/rules.json?ns=" + ProjectText(args.projectId)
  {
    var info := GetInfo(args);
    var uri := "http://" + info.host + ":" + PortText(info.port) + "/.settings/rules.json?ns=" + ProjectText(args.projectId);
    HttpRequest("PUT", uri, [("Authorization", "Bearer owner")], content)
  }

  /** The push always goes to the emulator's own host and names the project's namespace last. */
  lemma RulesRequestAddress(args: EmulatorArgs, content: string)
    ensures StartsWith(RulesRequest(args, content).uri, "http://" + GetInfo(args).host + ":")
    ensures Contains(RulesRequest(args, content).uri, "/.settings/rules.json?ns=" + ProjectText(args.projectId))
  {
    var info := GetInfo(args);
    var head := "http://" + info.host + ":";
    var port := PortText(info.port);
    var tail := "/.settings/rules.json?ns=" + ProjectText(args.projectId);
    assert RulesRequest(args, content).uri == head + (port + tail);
    assert RulesRequest(args, content).uri == (head + port) + tail + [];
    ContainsMiddle(head + port, tail, []);
  }

  /** With no address configured the rules go to the default database port. */
  lemma RulesUriDefaults(args: EmulatorArgs, content: string)
    requires args.host.None? && args.port.None? && args.projectId == Some("demo")
    ensures RulesRequest(args, content).uri == "http://" + "localhost" + ":" + "9000" + "/.settings/rules.json?ns=" + "demo"
  {
    assert GetInfo(args) == Address("localhost", PortNum(9000));
    assert NatToString(9) == ['9'];
    assert NatToString(90) == NatToString(9) + ['0'];
    assert NatToString(900) == NatToString(90) + ['0'];
    assert NatToString(9000) == NatToString(900) + ['0'];
    assert PortText(PortNum(9000)) == "9000";
  }

  /**
   * What the transport reports for the PUT: a transport error, or a status
   * and the response body, which is `None` when it is not JSON text.
   */
  datatype RulesReply = TransportError(message: string) | Reply(status: int, body: Option<Json>)

  /**
   * The value a rejected push carries: the transport's `Error` object, or
   * whatever the body's `error` property holds (`None` is `undefined`).
   */
  datatype Rejection = ErrorObject(message: string) | BodyError(value: Option<Json>)

  /**
   * How the push ends: it resolves, it rejects, or reading the body throws
   * inside the transport's callback (a body that is not JSON, or the JSON
   * `null`), so the promise never settles.
   */
  datatype PushResult = Resolved | Rejected(reason: Rejection) | CallbackThrew

  /** `updateRules`: resolves only on status 200; otherwise rejects with the transport error or the body's `error`. */
  function UpdateRules(reply: RulesReply): (r: PushResult)
    ensures r.Resolved? <==> (reply.Reply? && reply.status == 200)
    ensures reply.TransportError? ==> r == Rejected(ErrorObject(reply.message))
    ensures r.CallbackThrew? <==> (reply.Reply? && reply.status != 200 && (reply.body.None? || reply.body.value.JNull?))
    ensures reply.Reply? && reply.status != 200 && reply.body.Some? && !reply.body.value.JNull? ==>
      r == Rejected(BodyError(Prop(reply.body.value, "error")))
  {
    match reply
    case TransportError(m) => Rejected(ErrorObject(m))
    case Reply(status, body) =>
      if status == 200 then Resolved
      else if body.None? || body.value.JNull? then CallbackThrew
      else Rejected(BodyError(Prop(body.value, "error")))
  }

  /** A line the rules watcher logs. */
  datatype WatchLog =
    | ChangeDetected              // "Change detected, updating rules..."
    | RulesUpdated                // "Rules updated."
    | RulesError(path: string, error: string)
    | UpdateFailed                // "Failed to update rules"

  /**
   * How the change handler's own promise ends: it resolves, it rejects
   * (an exception thrown inside its `catch`), or it never settles because
   * the push never does.
   */
  datatype HandlerEnd = Handled | HandlerRejected | Pending

  datatype HandlerRun = HandlerRun(logs: seq<WatchLog>, end: HandlerEnd)

  /** The rejection `error.trim()` accepts: a string `error` in the body. */
  predicate StringReason(r: PushResult)
  {
    r.Rejected? && r.reason.BodyError? && r.reason.value.Some? && r.reason.value.value.JStr?
  }

  /**
   * The watcher's change handler: it pushes the new rules and logs the
   * outcome. Printing a failure calls `trim` on the rejection, so only a
   * string error is reported with the two warnings; any other rejection
   * makes the `catch` itself throw, and the handler rejects after logging
   * only the change.
   */
  function OnRulesChange(rulesPath: string, reply: RulesReply): (h: HandlerRun)
    ensures |h.logs| >= 1 && h.logs[0] == ChangeDetected
    ensures h.logs == [ChangeDetected, RulesUpdated] <==> UpdateRules(reply).Resolved?
    ensures h.end == Handled <==> (UpdateRules(reply).Resolved? || StringReason(UpdateRules(reply)))
    ensures h.end == Pending <==> UpdateRules(reply).CallbackThrew?
    ensures StringReason(UpdateRules(reply)) ==>
      h.logs == [ChangeDetected, RulesError(rulesPath, Trim(UpdateRules(reply).reason.value.value.s)), UpdateFailed]
    ensures h.end != Handled ==> h.logs == [ChangeDetected]
  {
    match UpdateRules(reply)
    case Resolved => HandlerRun([ChangeDetected, RulesUpdated], Handled)
    case CallbackThrew => HandlerRun([ChangeDetected], Pending)
    case Rejected(reason) =>
      if reason.BodyError? && reason.value.Some? && reason.value.value.JStr?
      then HandlerRun([ChangeDetected, RulesError(rulesPath, Trim(reason.value.value.s)), UpdateFailed], Handled)
      else HandlerRun([ChangeDetected], HandlerRejected)
  }

  /** A transport failure, such as a refused connection, escapes the handler unreported. */
  lemma TransportErrorEscapes(rulesPath: string, message: string)
    ensures OnRulesChange(rulesPath, TransportError(message)) == HandlerRun([ChangeDetected], HandlerRejected)
  {
  }

  /**
   * The handler as evidently intended: every rejection is reported with its
   * text and the two warnings, and none escapes.
   */
  function OnRulesChangeCorrected(rulesPath: string, reply: RulesReply): (h: HandlerRun)
    ensures |h.logs| >= 1 && h.logs[0] == ChangeDetected
    ensures h.end == Handled <==> !UpdateRules(reply).CallbackThrew?
    ensures UpdateRules(reply).Rejected? ==> |h.logs| == 3 && h.logs[1].RulesError? && h.logs[2] == UpdateFailed
  {
    match UpdateRules(reply)
    case Resolved => HandlerRun([ChangeDetected, RulesUpdated], Handled)
    case CallbackThrew => HandlerRun([ChangeDetected], Pending)
    case Rejected(reason) => HandlerRun([ChangeDetected, RulesError(rulesPath, Trim(ReasonText(reason))), UpdateFailed], Handled)
  }

  /** The text of a rejection: the error's message, or `String(error)`. */
  function ReasonText(reason: Rejection): string
  {
    match reason
    case ErrorObject(m) => m
    case BodyError(v) => if v.None? then "undefined" else ToText(v.value)
  }

  /**
   * Unless the push is refused with something other than a string, the
   * handler as written does not reject and agrees with the corrected one.
   */
  lemma OnRulesChangeCorrectedAgrees(rulesPath: string, reply: RulesReply)
    requires UpdateRules(reply).Rejected? ==> StringReason(UpdateRules(reply))
    ensures OnRulesChange(rulesPath, reply).end != HandlerRejected
    ensures OnRulesChangeCorrected(rulesPath, reply) == OnRulesChange(rulesPath, reply)
  {
    var r := UpdateRules(reply);
    if r.Resolved? {
      assert OnRulesChange(rulesPath, reply) == HandlerRun([ChangeDetected, RulesUpdated], Handled);
    } else if r.CallbackThrew? {
      assert OnRulesChange(rulesPath, reply) == HandlerRun([ChangeDetected], Pending);
    } else {
      var msg := r.reason.value.value.s;
      assert ReasonText(r.reason) == msg;
      assert OnRulesChange(rulesPath, reply) == HandlerRun([ChangeDetected, RulesError(rulesPath, Trim(msg)), UpdateFailed], Handled);
    }
  }
}
