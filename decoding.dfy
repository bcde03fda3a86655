/** The browser script's resilient response decoding (`safeJsonParse`): whatever
    the server sends (JSON, malformed JSON, an HTML error page, any status), the
    caller receives one JSON value and never an exception. */
module ResponseDecoding {
  import opened Common
  import opened JsonValues

  /** The outcome of parsing the response body as JSON (`response.json()` or
      `JSON.parse(text)`; both parse the same text). */
  datatype Parse = Parsed(value: Json) | Malformed(message: string)

  /** What the decoder can observe of a fetch response. The regular-expression
      captures of the first `<title>` and `<h1>` element of the body text, and the
      path of the response URL, are given rather than computed. `reuseMessage` is
      the message of the error the runtime raises when a body that was already
      read is read again. */
  datatype HttpResponse = HttpResponse(
    ok: bool,
    status: nat,
    statusText: string,
    contentType: string,
    urlPath: string,
    body: Parse,
    titleMatch: Option<string>,
    h1Match: Option<string>,
    reuseMessage: string)

  predicate IsJson(r: HttpResponse) {
    Contains(r.contentType, "application/json")
  }

  /** The failure record the decoder builds itself. */
  function Failure(error: Json, extra: map<string, Json>): Json {
    JObj(map["success" := JBool(false), "error" := error, "data" := JArr([])] + extra)
  }

  function StatusLine(r: HttpResponse): string {
    "HTTP " + IntToString(r.status) + ": " + r.statusText
  }

  function NotFoundMessage(r: HttpResponse): string {
    "Endpoint не найден: " + r.urlPath
  }

  /** The error text chosen for a non-OK response whose body is not JSON. */
  function NonJsonErrorText(r: HttpResponse): string {
    if r.status == 404 then NotFoundMessage(r)
    else if r.titleMatch.Some? then r.titleMatch.value
    else if r.h1Match.Some? then r.h1Match.value
    else StatusLine(r)
  }

  /** `errorData.error || errorData.message || "HTTP <status>"`. */
  function JsonErrorValue(errorData: Json, status: nat): Json {
    Or(Get(errorData, "error"), Or(Get(errorData, "message"), Some(JStr("HTTP " + IntToString(status))))).value
  }

  /** The message of a caught error, `error.message || 'Unknown error'`. */
  function CaughtMessage(message: string): string {
    if message != "" then message else "Unknown error"
  }

  /** `safeJsonParse`: an OK response with a parseable body yields that body;
      every other response yields an object with a `success` field, a
      non-OK one also carrying the status unless its JSON body was falsy. */
  function SafeJsonParse(r: HttpResponse): (v: Json)
    ensures r.ok && r.body.Parsed? ==> v == r.body.value
    ensures !(r.ok && r.body.Parsed?) ==> v.JObj? && "success" in v.fields && "error" in v.fields
    ensures !r.ok && !(IsJson(r) && r.body.Parsed? && !Truthy(r.body.value)) ==> "status" in v.fields
  {
    if !r.ok then
      if IsJson(r) then
        match r.body
        case Malformed(_) =>
          // the inner catch around `response.json()`
          var msg := if r.status == 404 then NotFoundMessage(r) else StatusLine(r);
          Failure(JStr(msg), map["status" := JNum(r.status)])
        case Parsed(errorData) =>
          if Truthy(errorData) then
            JObj(map["success" := JBool(false),
                     "error" := JsonErrorValue(errorData, r.status),
                     "status" := JNum(r.status)]
                 + SpreadEntries(errorData))
          else
            // a falsy JSON body falls through to a second `response.json()`,
            // which fails because the body was already consumed
            Failure(JStr(CaughtMessage(r.reuseMessage)), map[])
      else
        Failure(JStr(NonJsonErrorText(r)), map["status" := JNum(r.status)])
    else
      match r.body
      case Parsed(v) => v
      case Malformed(m) =>
        if IsJson(r) then Failure(JStr(CaughtMessage(m)), map[])
        else Failure(JStr("Invalid response format: expected JSON, got " + r.contentType), map[])
  }

  /** The `error` property of a decoded value, when it is a string. */
  function ErrorText(v: Json): Option<string> {
    match Get(v, "error")
    case Some(JStr(s)) => Some(s)
    case _ => None
  }

  // ---------------------------------------------------------------------------
  // Properties
  // ---------------------------------------------------------------------------

  /** A non-OK response that is not JSON becomes a failure record with an empty
      `data` list and the status; the error names the path for 404, otherwise it
      is the page's first `<title>` capture, then its first `<h1>` capture, then
      the status line. */
  lemma NonOkHtmlClassified(r: HttpResponse)
    requires !r.ok && !IsJson(r)
    ensures Get(SafeJsonParse(r), "success") == Some(JBool(false))
    ensures Get(SafeJsonParse(r), "data") == Some(JArr([]))
    ensures Get(SafeJsonParse(r), "status") == Some(JNum(r.status))
    ensures r.status == 404 ==> ErrorText(SafeJsonParse(r)) == Some("Endpoint не найден: " + r.urlPath)
    ensures r.status != 404 && r.titleMatch.Some? ==> ErrorText(SafeJsonParse(r)) == r.titleMatch
    ensures r.status != 404 && r.titleMatch.None? && r.h1Match.Some? ==> ErrorText(SafeJsonParse(r)) == r.h1Match
    ensures r.status != 404 && r.titleMatch.None? && r.h1Match.None? ==>
              ErrorText(SafeJsonParse(r)) == Some("HTTP " + IntToString(r.status) + ": " + r.statusText)
  {
  }

  /** The error text of a non-JSON failure is empty only when a matched `<title>`
      or `<h1>` element was itself empty. */
  lemma NonOkHtmlErrorNonEmpty(r: HttpResponse)
    requires !r.ok && !IsJson(r)
    requires r.titleMatch != Some("")
    requires r.titleMatch.None? ==> r.h1Match != Some("")
    ensures exists e :: ErrorText(SafeJsonParse(r)) == Some(e) && e != ""
  {
    NonOkHtmlClassified(r);
    if r.status == 404 {
      assert ErrorText(SafeJsonParse(r)) == Some(NotFoundMessage(r));
    } else if r.titleMatch.None? && r.h1Match.None? {
      assert ErrorText(SafeJsonParse(r)) == Some(StatusLine(r));
    }
  }

  /** A non-OK JSON error body keeps its own fields; the error is the body's
      `error`, else its `message`, else "HTTP <status>". */
  lemma NonOkJsonErrorChosen(r: HttpResponse, fields: map<string, Json>)
    requires !r.ok && IsJson(r) && r.body == Parsed(JObj(fields))
    requires "error" !in fields
    ensures Get(SafeJsonParse(r), "error") ==
              Some(if "message" in fields && Truthy(fields["message"]) then fields["message"]
                   else JStr("HTTP " + IntToString(r.status)))
    ensures forall k :: k in fields ==> Get(SafeJsonParse(r), k) == Some(fields[k])
  {
  }

  /** Unless the body is a JSON object that carries its own `success` field, a
      non-OK response always decodes to `success: false`. */
  lemma NonOkIsFailure(r: HttpResponse)
    requires !r.ok
    requires !(r.body.Parsed? && r.body.value.JObj? && "success" in r.body.value.fields)
    ensures Get(SafeJsonParse(r), "success") == Some(JBool(false))
  {
    if IsJson(r) && r.body.Parsed? && Truthy(r.body.value) {
      SpreadKeepsNamedKeys(r.body.value, "success");
    }
  }

  /** Object spread comes after `success: false`, so a non-OK JSON body that says
      `"success": true` decodes as a success. */
  lemma SuccessFieldOverrides()
    ensures var r := HttpResponse(false, 500, "Internal Server Error", "application/json", "/api/cart",
                                  Parsed(JObj(map["success" := JBool(true)])), None, None, "");
            Get(SafeJsonParse(r), "success") == Some(JBool(true))
  {
    var r := HttpResponse(false, 500, "Internal Server Error", "application/json", "/api/cart",
                          Parsed(JObj(map["success" := JBool(true)])), None, None, "");
    assert IsPrefix("application/json", r.contentType);
  }

  /** An OK response whose body parses is returned unchanged, whatever its content type. */
  lemma OkParsedPassesThrough(r: HttpResponse, v: Json)
    requires r.ok && r.body == Parsed(v)
    ensures SafeJsonParse(r) == v
  {
  }

  /** An OK response whose body does not parse becomes a failure with an empty
      `data` list; with a non-JSON content type the error names that type. */
  lemma OkMalformedFails(r: HttpResponse, m: string)
    requires r.ok && r.body == Malformed(m)
    ensures Get(SafeJsonParse(r), "success") == Some(JBool(false))
    ensures Get(SafeJsonParse(r), "data") == Some(JArr([]))
    ensures !IsJson(r) ==>
              ErrorText(SafeJsonParse(r)) == Some("Invalid response format: expected JSON, got " + r.contentType)
    ensures IsJson(r) ==> ErrorText(SafeJsonParse(r)) == Some(if m != "" then m else "Unknown error")
  {
  }
}
