/** `error_middleware`, which every request passes through: the CORS preflight
    answer, the JSON content type forced on `/api/` replies, and the JSON error
    replies built from what an `/api/` handler raised. */
module Middleware {
  import opened Common
  import opened JsonValues

  datatype Request = Request(verb: string, path: string)

  /** A response body: text as the handler produced it, or a JSON object. */
  datatype Body = Raw(content: string) | JsonFields(fields: map<string, Json>)

  /** What the route handler did: returned a response, raised an
      `HTTPException`, or raised any other exception. */
  datatype HandlerResult =
    | Responded(status: nat, contentType: string, body: Body)
    | HttpRaised(status: nat, reason: string)
    | Failed(message: string)

  /** A response leaving the middleware; `cors` tells whether the three CORS
      headers were added to it. */
  datatype Response = Response(status: nat, contentType: string, body: Body, cors: bool)

  /** What the middleware does with a request. */
  datatype Handled =
    | Preflight                     // the `OPTIONS` answer, made without calling the handler
    | Sent(response: Response)
    | Reraised(error: HandlerResult)

  /** The content type of `web.json_response`. */
  const JsonType: string := "application/json; charset=utf-8"

  /** The JSON content type names JSON. */
  lemma JsonTypeNamesJson()
    ensures Contains(JsonType, "application/json")
  {
    assert JsonType[..|"application/json"|] == "application/json";
    assert IsPrefix("application/json", JsonType);
  }

  predicate IsApi(path: string) {
    IsPrefix("/api/", path)
  }

  function ErrorBody(error: string): Body {
    JsonFields(map["success" := JBool(false), "error" := JStr(error)])
  }

  /** The error text for an `HTTPException` on an `/api/` path. */
  function HttpErrorText(request: Request, status: nat, reason: string): (text: string)
    ensures status == 404 ==>
              text == "API endpoint not found: " + request.verb + " " + request.path +
                      ". Проверьте, что сервер запущен."
    ensures status != 404 && reason != "" ==> text == reason
    ensures status != 404 && reason == "" ==> text == "Endpoint not found: " + request.verb + " " + request.path
  {
    var first := if reason != "" then reason else "Endpoint not found: " + request.verb + " " + request.path;
    if status == 404 then
      "API endpoint not found: " + request.verb + " " + request.path + ". Проверьте, что сервер запущен."
    else first
  }

  /** `error_middleware` for a request whose handler would give `handler`. */
  function ErrorMiddleware(request: Request, handler: HandlerResult): (h: Handled)
    ensures request.verb == "OPTIONS" ==> h == Preflight
    ensures request.verb != "OPTIONS" && !IsApi(request.path) ==>
              if handler.Responded? then
                h == Sent(Response(handler.status, handler.contentType, handler.body, true))
              else h == Reraised(handler)
  {
    if request.verb == "OPTIONS" then Preflight
    else
      match handler
      case Responded(status, contentType, body) =>
        var forced := if IsApi(request.path) && !Contains(contentType, "application/json") then JsonType
                      else contentType;
        Sent(Response(status, forced, body, true))
      case HttpRaised(status, reason) =>
        if IsApi(request.path) then
          Sent(Response(status, JsonType, ErrorBody(HttpErrorText(request, status, reason)), false))
        else Reraised(handler)
      case Failed(message) =>
        if IsApi(request.path) then Sent(Response(500, JsonType, ErrorBody(message), false))
        else Reraised(handler)
  }

  // ---------------------------------------------------------------------------
  // Properties
  // ---------------------------------------------------------------------------

  /** Every `/api/` request other than a preflight is answered, never re-raised,
      and the answer's content type names JSON. */
  lemma ApiAnswersAreJson(request: Request, handler: HandlerResult)
    requires request.verb != "OPTIONS" && IsApi(request.path)
    ensures var h := ErrorMiddleware(request, handler);
            h.Sent? && Contains(h.response.contentType, "application/json")
  {
    JsonTypeNamesJson();
  }

  /** A returned `/api/` response keeps its status and body and gets the CORS
      headers; its content type is kept when it already names JSON and is
      replaced by the JSON one otherwise. */
  lemma ApiResponseKept(request: Request, status: nat, contentType: string, body: Body)
    requires request.verb != "OPTIONS" && IsApi(request.path)
    ensures var h := ErrorMiddleware(request, Responded(status, contentType, body));
            h.Sent? && h.response.status == status && h.response.body == body && h.response.cors &&
            (Contains(contentType, "application/json") <==> h.response.contentType == contentType) &&
            (!Contains(contentType, "application/json") ==> h.response.contentType == JsonType)
  {
    JsonTypeNamesJson();
  }

  /** An `HTTPException` on an `/api/` path becomes a JSON failure with the same
      status; a 404 always gets the not-found text, whatever its reason. */
  lemma ApiHttpErrorShaped(request: Request, status: nat, reason: string)
    requires request.verb != "OPTIONS" && IsApi(request.path)
    ensures var h := ErrorMiddleware(request, HttpRaised(status, reason));
            h.Sent? && h.response.status == status && !h.response.cors &&
            h.response.body.JsonFields? &&
            h.response.body.fields["success"] == JBool(false) &&
            h.response.body.fields["error"] == JStr(HttpErrorText(request, status, reason))
  {
  }

  /** Any other exception on an `/api/` path becomes a 500 JSON failure
      carrying the exception's text. */
  lemma ApiCrashShaped(request: Request, message: string)
    requires request.verb != "OPTIONS" && IsApi(request.path)
    ensures ErrorMiddleware(request, Failed(message)) == Sent(Response(500, JsonType, ErrorBody(message), false))
  {
  }
}
