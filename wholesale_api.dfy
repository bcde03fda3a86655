/** The wholesale handler `submit_wholesale_api`: four required fields, then the
    stored request, whose id the reply carries. */
module WholesaleApi {
  import opened Common
  import opened JsonValues
  import opened ResponseDecoding
  import opened PyValues

  /** What `save_wholesale_request` stores. */
  datatype WholesaleRequest = WholesaleRequest(userId: int, name: Json, contact: Json, question: Json)

  const AllFieldsRequired: string := "All fields required"

  /** Python's `all([...])` over the four fields of the request. */
  predicate AllTruthy(fields: seq<Json>) {
    forall i :: 0 <= i < |fields| ==> PyTruthy(fields[i])
  }

  /** The fields that `all` checks, in source order. */
  function RequiredFields(data: map<string, Json>): (r: seq<Json>)
    ensures |r| == 4
  {
    [GetOrNone(data, "user_id"), GetOrNone(data, "name"), GetOrNone(data, "contact"), GetOrNone(data, "question")]
  }

  /** The reply and the stored request, if any; `nextId` is the id the store
      gives the next request. */
  datatype Submitted = Submitted(reply: Reply, stored: Option<WholesaleRequest>)

  /** `submit_wholesale_api`: exactly the successful submissions store a
      request, and their reply names the id it is stored under. */
  function SubmitEffect(body: Parse, nextId: int): (e: Submitted)
    ensures e.stored.Some? <==> e.reply.status == 200
    ensures e.reply.status in {200, 400, 500}
    ensures e.stored.Some? ==> e.reply == Success(map["request_id" := JNum(nextId)])
  {
    match BodyObject(body)
    case Raise(f) => Submitted(Crash(f), None)
    case Ok(data) =>
      if !AllTruthy(RequiredFields(data)) then Submitted(Refused(400, AllFieldsRequired), None)
      else
        match PyInt(GetOrNone(data, "user_id"))
        case Raise(f) => Submitted(Crash(f), None)
        case Ok(userId) =>
          Submitted(Success(map["request_id" := JNum(nextId)]),
                    Some(WholesaleRequest(userId, GetOrNone(data, "name"), GetOrNone(data, "contact"),
                                          GetOrNone(data, "question"))))
  }

  /** The wholesale store; request ids are given out in sequence, from 1. */
  class WholesaleDesk {
    var requests: seq<WholesaleRequest>

    constructor ()
      ensures requests == []
    {
      requests := [];
    }

    method Submit(body: Parse) returns (reply: Reply)
      modifies this
      ensures var e := SubmitEffect(body, |old(requests)| + 1);
              reply == e.reply &&
              requests == old(requests) + (if e.stored.Some? then [e.stored.value] else [])
    {
      var data := BodyObject(body);
      if data.Raise? {
        return Crash(data.fault);
      }
      var userId := GetOrNone(data.value, "user_id");
      var name := GetOrNone(data.value, "name");
      var contact := GetOrNone(data.value, "contact");
      var question := GetOrNone(data.value, "question");
      if !AllTruthy([userId, name, contact, question]) {
        return Refused(400, AllFieldsRequired);
      }
      var id := PyInt(userId);
      if id.Raise? {
        return Crash(id.fault);
      }
      requests := requests + [WholesaleRequest(id.value, name, contact, question)];
      reply := Success(map["request_id" := JNum(|requests|)]);
    }
  }

  /** A request with any of the four fields missing or falsy is refused with
      400 and nothing is stored; one with all four present is never refused. */
  lemma MissingFieldRefused(data: map<string, Json>, nextId: int)
    ensures (exists k :: k in {"user_id", "name", "contact", "question"} && !PyTruthy(GetOrNone(data, k))) <==>
            SubmitEffect(Parsed(JObj(data)), nextId) == Submitted(Refused(400, AllFieldsRequired), None)
  {
    var fields := RequiredFields(data);
    if exists k :: k in {"user_id", "name", "contact", "question"} && !PyTruthy(GetOrNone(data, k)) {
      var k :| k in {"user_id", "name", "contact", "question"} && !PyTruthy(GetOrNone(data, k));
      if k == "user_id" { assert !PyTruthy(fields[0]); }
      else if k == "name" { assert !PyTruthy(fields[1]); }
      else if k == "contact" { assert !PyTruthy(fields[2]); }
      else { assert !PyTruthy(fields[3]); }
    } else {
      assert PyTruthy(GetOrNone(data, "user_id")) && PyTruthy(GetOrNone(data, "name")) &&
             PyTruthy(GetOrNone(data, "contact")) && PyTruthy(GetOrNone(data, "question"));
      assert AllTruthy(fields);
    }
  }

  /** A stored request carries exactly the submitted name, contact and question
      and the numeric user id, and the reply names the id it was stored under. */
  lemma StoredAsSubmitted(data: map<string, Json>, nextId: int)
    requires SubmitEffect(Parsed(JObj(data)), nextId).stored.Some?
    ensures var e := SubmitEffect(Parsed(JObj(data)), nextId);
            e.reply == Success(map["request_id" := JNum(nextId)]) &&
            PyInt(GetOrNone(data, "user_id")) == Ok(e.stored.value.userId) &&
            "name" in data && e.stored.value.name == data["name"] &&
            "contact" in data && e.stored.value.contact == data["contact"] &&
            "question" in data && e.stored.value.question == data["question"]
  {
    var fields := RequiredFields(data);
    assert PyTruthy(fields[1]) && PyTruthy(fields[2]) && PyTruthy(fields[3]);
  }
}
