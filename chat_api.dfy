/** The assistant chat handler `ai_chat_api`: request validation, the empty
    catalog answer, the shaping of the assistant's recommendations and the
    classification of an assistant failure. */
module ChatApi {
  import opened Common
  import opened JsonValues
  import opened ResponseDecoding
  import opened PyValues

  /** What `generate_maxim_reply` returns or raises. The recommendations are a
      list, or `None` for none. */
  datatype AiOutcome =
    | AiReplied(replyText: Json, recommended: Option<seq<Json>>, productIds: Json, orderButtonsMode: Json)
    | AiFailed(message: string)

  const MessageFieldsRequired: string := "user_id and message required"
  const CatalogNotReady: string := "Извините, каталог товаров еще не загружен. Попробуйте позже."
  const SlowReply: string := "Извините, ответ занимает слишком много времени. Попробуйте задать вопрос короче или позже."
  const ServiceTrouble: string := "Извините, временные проблемы с сервисом. Попробуйте позже."
  const GenericTrouble: string :=
    "Извините, произошла ошибка при генерации ответа. Попробуйте позже или переформулируйте вопрос."

  const MaxRecommended: nat := 5

  // ---------------------------------------------------------------------------
  // Error classification
  // ---------------------------------------------------------------------------

  predicate MentionsTimeout(message: string) {
    Contains(Lower(message), "timeout") || Contains(Lower(message), "timed out")
  }

  predicate MentionsService(message: string) {
    Contains(Lower(message), "api") || Contains(Lower(message), "key")
  }

  /** The user-facing text for an assistant failure. */
  function ClassifyAiError(message: string): (text: string)
    ensures MentionsTimeout(message) <==> text == SlowReply
    ensures !MentionsTimeout(message) && MentionsService(message) <==> text == ServiceTrouble
    ensures !MentionsTimeout(message) && !MentionsService(message) <==> text == GenericTrouble
  {
    if MentionsTimeout(message) then SlowReply
    else if MentionsService(message) then ServiceTrouble
    else GenericTrouble
  }

  /** A timeout of the API is reported as slowness: the timeout check comes
      first, and the comparison ignores case. */
  lemma ApiTimeoutIsSlow()
    ensures ClassifyAiError("API Timeout") == SlowReply
  {
    var low := Lower("API Timeout");
    assert low == "api timeout";
    assert OccursAt(low, "timeout", 4);
    ContainsIff(low, "timeout");
  }

  /** A rejected key is a service problem. */
  lemma InvalidKeyIsServiceTrouble()
    ensures ClassifyAiError("Invalid KEY") == ServiceTrouble
  {
    var low := Lower("Invalid KEY");
    assert low == "invalid key";
    assert OccursAt(low, "key", 8);
    ContainsIff(low, "key");
    LacksFirstChar(low, "timeout");
    LacksFirstChar(low, "timed out");
  }

  // ---------------------------------------------------------------------------
  // Recommendations
  // ---------------------------------------------------------------------------

  /** The record kept for one recommended product, with `""` or `[]` for what
      it lacks. */
  function Summary(fields: map<string, Json>): (r: Json)
    ensures r.JObj? && r.fields.Keys == {"id", "name", "price", "description", "pictures"}
    ensures forall k :: k in r.fields && k in fields ==> r.fields[k] == fields[k]
    ensures "pictures" !in fields ==> r.fields["pictures"] == JArr([])
    ensures forall k :: k in r.fields && k != "pictures" && k !in fields ==> r.fields[k] == JStr("")
  {
    JObj(map["id" := GetOr(fields, "id", JStr("")),
             "name" := GetOr(fields, "name", JStr("")),
             "price" := GetOr(fields, "price", JStr("")),
             "description" := GetOr(fields, "description", JStr("")),
             "pictures" := GetOr(fields, "pictures", JArr([]))])
  }

  /** The dict entries of `items`, summarised, in order; other entries are skipped. */
  function Summaries(items: seq<Json>): (r: seq<Json>)
    ensures |r| <= |items|
    ensures forall x :: x in r ==> exists p :: p in items && p.JObj? && x == Summary(p.fields)
    ensures forall p :: p in items && p.JObj? ==> Summary(p.fields) in r
  {
    if items == [] then []
    else
      var init := Summaries(items[..|items| - 1]);
      var last := items[|items| - 1];
      assert items == items[..|items| - 1] + [last];
      if last.JObj? then init + [Summary(last.fields)] else init
  }

  /** The summaries keep the reply's order: summarising a concatenation
      summarises each part. */
  lemma {:induction false} SummariesAppend(a: seq<Json>, b: seq<Json>)
    ensures Summaries(a + b) == Summaries(a) + Summaries(b)
    decreases |b|
  {
    if b == [] {
      assert a + b == a;
    } else {
      var b' := b[..|b| - 1];
      assert (a + b)[..|a + b| - 1] == a + b';
      assert (a + b)[|a + b| - 1] == b[|b| - 1];
      SummariesAppend(a, b');
    }
  }

  function FirstFive(items: seq<Json>): (r: seq<Json>)
    ensures |r| <= MaxRecommended
  {
    if |items| <= MaxRecommended then items else items[..MaxRecommended]
  }

  /** The loop over `recommended_products[:5]`. */
  method RecommendedList(recommended: Option<seq<Json>>) returns (list: seq<Json>)
    ensures recommended.None? || recommended.value == [] ==> list == []
    ensures recommended.Some? ==> list == Summaries(FirstFive(recommended.value))
    ensures |list| <= MaxRecommended
  {
    list := [];
    if recommended.None? || recommended.value == [] {
      return;
    }
    var items := FirstFive(recommended.value);
    var i := 0;
    while i < |items|
      invariant 0 <= i <= |items|
      invariant list == Summaries(items[..i])
    {
      assert items[..i + 1][..i] == items[..i];
      var product := items[i];
      if product.JObj? {
        list := list + [Summary(product.fields)];
      }
      i := i + 1;
    }
    assert items[..|items|] == items;
  }

  /** At most five recommendations, each drawn from the first five the
      assistant gave and each a dict there. */
  lemma RecommendationsFromFirstFive(recommended: seq<Json>)
    ensures |Summaries(FirstFive(recommended))| <= MaxRecommended
    ensures forall x :: x in Summaries(FirstFive(recommended)) ==>
              exists i :: 0 <= i < |recommended| && i < MaxRecommended && recommended[i].JObj? &&
                          x == Summary(recommended[i].fields)
  {
    var five := FirstFive(recommended);
    forall x | x in Summaries(five)
      ensures exists i :: 0 <= i < |recommended| && i < MaxRecommended && recommended[i].JObj? &&
                          x == Summary(recommended[i].fields)
    {
      var p :| p in five && p.JObj? && x == Summary(p.fields);
      var i :| 0 <= i < |five| && five[i] == p;
      assert recommended[i] == p;
    }
  }

  // ---------------------------------------------------------------------------
  // The handler
  // ---------------------------------------------------------------------------

  /** The reply when the assistant failed. */
  function AiFailureReply(message: string): Reply {
    Reply(500, map["success" := JBool(false), "error" := JStr(message), "reply" := JStr(ClassifyAiError(message)),
                   "recommended_products" := JArr([]), "product_ids" := JArr([]),
                   "order_buttons_mode" := JBool(false)])
  }

  /** `data.get('message', '').strip()`: the message must be text. */
  function MessageText(data: map<string, Json>): Outcome<string> {
    match GetOr(data, "message", JStr(""))
    case JStr(s) => Ok(Strip(s))
    case other => Raise(NoAttribute(TypeName(other), "strip"))
  }

  /** `ai_chat_api`; the catalog comes from the cache (`None` when it holds none)
      and `ai` is what the assistant service does with the message. */
  method AiChat(body: Parse, cache: Option<seq<Json>>, ai: AiOutcome) returns (reply: Reply)
    ensures BodyObject(body).Raise? ==> reply == Crash(BodyObject(body).fault)
    ensures BodyObject(body).Ok? ==>
              var data := BodyObject(body).value;
              match MessageText(data)
              case Raise(f) => reply == Crash(f)
              case Ok(message) =>
                if !PyTruthy(GetOrNone(data, "user_id")) || message == "" then
                  reply == Refused(400, MessageFieldsRequired)
                else if cache.None? || cache.value == [] then
                  reply == Success(map["reply" := JStr(CatalogNotReady), "recommended_products" := JArr([]),
                                       "product_ids" := JArr([]), "order_buttons_mode" := JBool(false)])
                else match ai
                  case AiFailed(m) => reply == AiFailureReply(m)
                  case AiReplied(text, recommended, ids, mode) =>
                    reply == Success(map["reply" := text,
                                         "recommended_products" :=
                                           JArr(if recommended.Some? then Summaries(FirstFive(recommended.value)) else []),
                                         "product_ids" := (if PyTruthy(ids) then ids else JArr([])),
                                         "order_buttons_mode" := mode])
  {
    var data := BodyObject(body);
    if data.Raise? {
      return Crash(data.fault);
    }
    var message := MessageText(data.value);
    if message.Raise? {
      return Crash(message.fault);
    }
    if !PyTruthy(GetOrNone(data.value, "user_id")) || message.value == "" {
      return Refused(400, MessageFieldsRequired);
    }
    var products := if cache.None? then [] else cache.value;
    if products == [] {
      return Success(map["reply" := JStr(CatalogNotReady), "recommended_products" := JArr([]),
                         "product_ids" := JArr([]), "order_buttons_mode" := JBool(false)]);
    }
    match ai {
      case AiFailed(m) =>
        reply := AiFailureReply(m);
      case AiReplied(text, recommended, ids, mode) =>
        var list := RecommendedList(recommended);
        reply := Success(map["reply" := text, "recommended_products" := JArr(list),
                             "product_ids" := (if PyTruthy(ids) then ids else JArr([])),
                             "order_buttons_mode" := mode]);
    }
  }

  /** Every assistant failure is answered with 500, `success: false`, no
      recommendations and the order buttons off, whatever the message. */
  lemma FailureReplyShape(message: string)
    ensures var r := AiFailureReply(message);
            r.status == 500 && r.body["success"] == JBool(false) &&
            r.body["recommended_products"] == JArr([]) && r.body["product_ids"] == JArr([]) &&
            r.body["order_buttons_mode"] == JBool(false) &&
            r.body["reply"] in {JStr(SlowReply), JStr(ServiceTrouble), JStr(GenericTrouble)}
  {
  }
}
