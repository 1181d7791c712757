/**
 * The mapping from an HTTP response to the error the command-line tool
 * raises: no error below 400; otherwise an "HTTP Error" whose message comes
 * from the body's `error` field, with exit code 2 for server errors and 1
 * for client errors.
 */
module ResponseToError {
  import opened Wrappers
  import opened Strs
  import opened OMaps
  import opened Json

  /** The `FirebaseError` raised for a failed response. */
  datatype HttpError = HttpError(message: string, body: Json, response: Json, exit: int, status: int)

  datatype Outcome =
    | NoError
    | Raised(error: HttpError)
      /** A `TypeError` from writing `body.error` on a null or primitive body (the module is strict). */
    | Crashed

  /** The body a 404 with a text body is replaced by. */
  const NotFoundBody: Json := JObj([("error", JObj([("message", JStr("Not Found"))]))])

  /** `typeof body === "object"` for a present body (null included). */
  predicate IsObjectTyped(body: Option<Json>)
  {
    body.Some? && (body.value.JObj? || body.value.JList? || body.value.JNull?)
  }

  /**
   * A body that is not object-typed is run through `JSON.parse` (`parse`);
   * `undefined` and unparseable text become `{}`, a number or boolean parses
   * to itself.
   */
  function ParsedBody(body: Option<Json>, parse: string -> Option<Json>): Json
  {
    match body
    case None => JObj([])
    case Some(JStr(s)) => parse(s).GetOr(JObj([]))
    case Some(j) => j
  }

  /** The fallback `error` for a body without one. */
  function DefaultError(status: int): Json
  {
    JObj([("message", JStr(if status == 404 then "Not Found" else "Unknown Error"))])
  }

  /** `body.error.message || body.error`, as text. */
  function ErrorText(error: Json): (t: string)
    ensures error.JStr? ==> t == error.s
    ensures forall text :: error.JObj? && Get(error.props, "message") == Some(JStr(text)) && text != "" ==> t == text
  {
    var m := Prop(error, "message");
    if m.Some? && Truthy(m.value) then ToText(m.value) else ToText(error)
  }

  /** The error text a response reports when its body carries a truthy `error`. */
  function BodyError(body: Json, status: int): Json
  {
    var e := Prop(body, "error");
    if e.Some? && Truthy(e.value) then e.value else DefaultError(status)
  }

  /** The body after a 404's text is replaced and a body that is not object-typed is parsed. */
  function EffectiveBody(status: int, body0: Option<Json>, parse: string -> Option<Json>): Json
  {
    var body1 := if body0.Some? && body0.value.JStr? && status == 404 then Some(NotFoundBody) else body0;
    if IsObjectTyped(body1) then body1.value else ParsedBody(body1, parse)
  }

  /** A body on which `body.error = …` throws in strict mode. */
  predicate IsPrimitive(body: Json)
  {
    body.JNull? || body.JNum? || body.JBool? || body.JStr?
  }

  /** `body.error` is present and truthy. */
  predicate HasError(body: Json)
  {
    Prop(body, "error").Some? && Truthy(Prop(body, "error").value)
  }

  /** The message prefix every raised error carries. */
  function Prefix(status: int): string
  {
    "HTTP Error: " + IntToString(status) + ", "
  }

  /**
   * `responseToError(response, body)`. `response` is the response object
   * apart from its status; the returned error holds it with
   * `request.headers` removed.
   */
  function ResponseToError(status: int, response: Json, body0: Option<Json>, parse: string -> Option<Json>): (r: Outcome)
    ensures r.NoError? <==> status < 400
    ensures r.Crashed? <==> status >= 400 && IsPrimitive(EffectiveBody(status, body0, parse))
    ensures r.Raised? ==> r.error.status == status && r.error.exit == (if status >= 500 then 2 else 1)
    ensures r.Raised? ==> r.error.message == Prefix(status) + ErrorText(BodyError(EffectiveBody(status, body0, parse), status))
    ensures r.Raised? ==> GetPath(r.error.response, ["request", "headers"]).None?
    ensures r.Raised? && r.error.body.JObj? ==> HasError(r.error.body)
  {
    var body1 := if body0.Some? && body0.value.JStr? && status == 404 then Some(NotFoundBody) else body0;
    if status < 400 then NoError
    else
      var body := if IsObjectTyped(body1) then body1.value else ParsedBody(body1, parse);
      if IsPrimitive(body) then Crashed
      else
        var error := BodyError(body, status);
        var stored := if body.JObj? && !HasError(body) then JObj(Put(body.props, "error", error)) else body;
        assert stored.JObj? ==> HasError(stored) by {
          if body.JObj? && !HasError(body) {
            PutGet(body.props, "error", error, "error");
          }
        }
        UnsetGet(response, ["request", "headers"]);
        Raised(HttpError(Prefix(status) + ErrorText(error), stored, UnsetPath(response, ["request", "headers"]),
                         if status >= 500 then 2 else 1, status))
  }

  /** A text body on a 404 always reports "Not Found". */
  lemma TextBodyNotFound(response: Json, text: string, parse: string -> Option<Json>)
    ensures ResponseToError(404, response, Some(JStr(text)), parse).Raised?
    ensures ResponseToError(404, response, Some(JStr(text)), parse).error.message == "HTTP Error: 404, Not Found"
  {
    var e := JObj([("message", JStr("Not Found"))]);
    assert EffectiveBody(404, Some(JStr(text)), parse) == NotFoundBody;
    assert Get(NotFoundBody.props, "error") == Some(e);
    assert BodyError(NotFoundBody, 404) == e;
    assert Get(e.props, "message") == Some(JStr("Not Found"));
    assert ErrorText(e) == "Not Found";
    PrefixNotFound();
    var r := ResponseToError(404, response, Some(JStr(text)), parse);
    assert r.error.message == Prefix(404) + ErrorText(e);
  }

  /** The prefix of a 404 error, and the whole message the default 404 error gives. */
  lemma PrefixNotFound()
    ensures Prefix(404) == "HTTP Error: 404, "
    ensures Prefix(404) + "Not Found" == "HTTP Error: 404, Not Found"
  {
    assert NatToString(4) == "4" && NatToString(40) == "40";
    var m := "HTTP Error: 404, " + "Not Found";
    assert |m| == 26;
    forall i | 0 <= i < 26 ensures m[i] == "HTTP Error: 404, Not Found"[i] {
    }
  }

  /** A body without a truthy `error` reports "Not Found" on a 404 and "Unknown Error" otherwise. */
  lemma MissingErrorDefault(status: int, response: Json, props: OMap<Json>, parse: string -> Option<Json>)
    requires status >= 400
    requires !HasError(JObj(props))
    ensures var r := ResponseToError(status, response, Some(JObj(props)), parse);
      r.Raised? &&
      r.error.message == Prefix(status) + (if status == 404 then "Not Found" else "Unknown Error")
  {
  }

  /** A body whose `error` is a non-empty string reports that string. */
  lemma ErrorStringReported(status: int, response: Json, props: OMap<Json>, text: string, parse: string -> Option<Json>)
    requires status >= 400
    requires Get(props, "error") == Some(JStr(text)) && text != ""
    ensures var r := ResponseToError(status, response, Some(JObj(props)), parse);
      r.Raised? && r.error.message == Prefix(status) + text
  {
    assert EffectiveBody(status, Some(JObj(props)), parse) == JObj(props);
    assert BodyError(JObj(props), status) == JStr(text);
  }

  /** A body whose `error.message` is a non-empty string reports that message. */
  lemma ErrorMessageReported(status: int, response: Json, props: OMap<Json>, fields: OMap<Json>, text: string,
                             parse: string -> Option<Json>)
    requires status >= 400
    requires Get(props, "error") == Some(JObj(fields)) && Get(fields, "message") == Some(JStr(text)) && text != ""
    ensures var r := ResponseToError(status, response, Some(JObj(props)), parse);
      r.Raised? && r.error.message == Prefix(status) + text
  {
    var error := JObj(fields);
    assert EffectiveBody(status, Some(JObj(props)), parse) == JObj(props);
    assert BodyError(JObj(props), status) == error;
    assert ErrorText(error) == text;
  }

  /** An object body, an absent body, or text that parses to an object is always turned into an error. */
  lemma NoCrashOnObjects(status: int, response: Json, body0: Option<Json>, parse: string -> Option<Json>)
    requires status >= 400
    requires body0.None? || body0.value.JObj? || body0.value.JList? ||
      (body0.value.JStr? && (status == 404 || parse(body0.value.s).None? || parse(body0.value.s).value.JObj?))
    ensures ResponseToError(status, response, body0, parse).Raised?
  {
  }
}
