/** The subscription handlers: `get_subscription_status` reads the status,
    `toggle_subscription_api` flips it. */
module SubscriptionApi {
  import opened Common
  import opened JsonValues
  import opened ResponseDecoding
  import opened PyValues

  /** What `subscribe_user` records for a user. */
  datatype Subscriber = Subscriber(chatId: int, username: Json)

  type Subscribers = map<int, Subscriber>

  const ToggleFieldsRequired: string := "user_id and chat_id required"

  /** A handler's reply together with the subscriptions after it. */
  datatype Toggled = Toggled(reply: Reply, subscribers: Subscribers)

  /** `toggle_subscription_api`: `username` defaults to `""`; `int(chat_id)` is
      only evaluated when the user is being subscribed. */
  function ToggleEffect(subscribers: Subscribers, body: Parse): (t: Toggled)
    ensures t.reply.status != 200 ==> t.subscribers == subscribers
    ensures t.reply.status == 200 ==>
              exists u :: (u in subscribers <==> u !in t.subscribers) &&
                          t.reply == Success(map["subscribed" := JBool(u in t.subscribers)]) &&
                          forall v :: v != u ==> (v in t.subscribers <==> v in subscribers)
    ensures forall v :: v in subscribers && v in t.subscribers ==> t.subscribers[v] == subscribers[v]
  {
    match BodyObject(body)
    case Raise(f) => Toggled(Crash(f), subscribers)
    case Ok(data) =>
      var user := GetOrNone(data, "user_id");
      var chat := GetOrNone(data, "chat_id");
      var username := GetOr(data, "username", JStr(""));
      if !PyTruthy(user) || !PyTruthy(chat) then Toggled(Refused(400, ToggleFieldsRequired), subscribers)
      else
        match PyInt(user)
        case Raise(f) => Toggled(Crash(f), subscribers)
        case Ok(userId) =>
          if userId in subscribers then
            Toggled(Success(map["subscribed" := JBool(false)]), subscribers - {userId})
          else
            match PyInt(chat)
            case Raise(f) => Toggled(Crash(f), subscribers)
            case Ok(chatId) =>
              Toggled(Success(map["subscribed" := JBool(true)]), subscribers[userId := Subscriber(chatId, username)])
  }

  /** `get_subscription_status`: 400 for a missing or empty parameter; for a
      numeric one the membership of that user, read as Python `int()` reads it;
      500 for any other text. */
  function StatusReply(subscribers: Subscribers, userParam: Option<string>): (r: Reply)
    ensures userParam.None? || userParam.value == "" ==> r == Refused(400, "user_id required")
    ensures forall n :: userParam.Some? && IntLiteral(userParam.value) == Some(n) ==>
              r == Success(map["subscribed" := JBool(n in subscribers)])
    ensures userParam.Some? && userParam.value != "" && IntLiteral(userParam.value).None? ==> r.status == 500
  {
    if userParam.None? || userParam.value == "" then Refused(400, "user_id required")
    else
      match PyInt(JStr(userParam.value))
      case Raise(f) => Crash(f)
      case Ok(userId) => Success(map["subscribed" := JBool(userId in subscribers)])
  }

  /** The subscription store. */
  class SubscriptionStore {
    var subscribers: Subscribers

    constructor ()
      ensures subscribers == map[]
    {
      subscribers := map[];
    }

    method Toggle(body: Parse) returns (reply: Reply)
      modifies this
      ensures reply == ToggleEffect(old(subscribers), body).reply
      ensures subscribers == ToggleEffect(old(subscribers), body).subscribers
    {
      var data := BodyObject(body);
      if data.Raise? {
        return Crash(data.fault);
      }
      var user := GetOrNone(data.value, "user_id");
      var chat := GetOrNone(data.value, "chat_id");
      var username := GetOr(data.value, "username", JStr(""));
      if !PyTruthy(user) || !PyTruthy(chat) {
        return Refused(400, ToggleFieldsRequired);
      }
      var userId := PyInt(user);
      if userId.Raise? {
        return Crash(userId.fault);
      }
      var newStatus: bool;
      if userId.value in subscribers {
        subscribers := subscribers - {userId.value};
        newStatus := false;
      } else {
        var chatId := PyInt(chat);
        if chatId.Raise? {
          return Crash(chatId.fault);
        }
        subscribers := subscribers[userId.value := Subscriber(chatId.value, username)];
        newStatus := true;
      }
      reply := Success(map["subscribed" := JBool(newStatus)]);
    }

    method Status(userParam: Option<string>) returns (reply: Reply)
      ensures reply == StatusReply(subscribers, userParam)
    {
      reply := StatusReply(subscribers, userParam);
    }
  }

  // ---------------------------------------------------------------------------
  // Properties
  // ---------------------------------------------------------------------------

  /** A successful toggle reports the negation of the previous status and
      changes only this user's entry: an unsubscribed user becomes subscribed
      with the given chat id and username, a subscribed one is removed. */
  lemma ToggleNegates(subscribers: Subscribers, data: map<string, Json>, userId: int)
    requires PyTruthy(GetOrNone(data, "user_id")) && PyTruthy(GetOrNone(data, "chat_id"))
    requires PyInt(GetOrNone(data, "user_id")) == Ok(userId)
    requires userId !in subscribers ==> PyInt(GetOrNone(data, "chat_id")).Ok?
    ensures var t := ToggleEffect(subscribers, Parsed(JObj(data)));
            t.reply == Success(map["subscribed" := JBool(userId !in subscribers)]) &&
            (userId in t.subscribers <==> userId !in subscribers) &&
            (forall u :: u != userId ==> (u in t.subscribers <==> u in subscribers)) &&
            (forall u :: u != userId && u in subscribers ==> t.subscribers[u] == subscribers[u]) &&
            (userId in t.subscribers ==>
               t.subscribers[userId] ==
                 Subscriber(PyInt(GetOrNone(data, "chat_id")).value, GetOr(data, "username", JStr(""))))
  {
  }

  /** A request without a truthy `user_id` and `chat_id` is refused with 400 and
      changes nothing. */
  lemma ToggleRequiresIds(subscribers: Subscribers, data: map<string, Json>)
    requires !PyTruthy(GetOrNone(data, "user_id")) || !PyTruthy(GetOrNone(data, "chat_id"))
    ensures ToggleEffect(subscribers, Parsed(JObj(data))) == Toggled(Refused(400, ToggleFieldsRequired), subscribers)
  {
  }

  /** The same request twice, starting unsubscribed, restores the subscriptions. */
  lemma ToggleTwiceRestores(subscribers: Subscribers, data: map<string, Json>, userId: int)
    requires PyTruthy(GetOrNone(data, "user_id")) && PyTruthy(GetOrNone(data, "chat_id"))
    requires PyInt(GetOrNone(data, "user_id")) == Ok(userId) && PyInt(GetOrNone(data, "chat_id")).Ok?
    requires userId !in subscribers
    ensures var once := ToggleEffect(subscribers, Parsed(JObj(data)));
            ToggleEffect(once.subscribers, Parsed(JObj(data))).subscribers == subscribers
  {
    var entry := Subscriber(PyInt(GetOrNone(data, "chat_id")).value, GetOr(data, "username", JStr("")));
    ToggleSubscribes(subscribers, data, userId);
    var once := subscribers[userId := entry];
    ToggleUnsubscribes(once, data, userId);
    assert once - {userId} == subscribers;
  }

  lemma ToggleSubscribes(subscribers: Subscribers, data: map<string, Json>, userId: int)
    requires PyTruthy(GetOrNone(data, "user_id")) && PyTruthy(GetOrNone(data, "chat_id"))
    requires PyInt(GetOrNone(data, "user_id")) == Ok(userId) && PyInt(GetOrNone(data, "chat_id")).Ok?
    requires userId !in subscribers
    ensures ToggleEffect(subscribers, Parsed(JObj(data))).subscribers ==
              subscribers[userId := Subscriber(PyInt(GetOrNone(data, "chat_id")).value, GetOr(data, "username", JStr("")))]
  {
  }

  lemma ToggleUnsubscribes(subscribers: Subscribers, data: map<string, Json>, userId: int)
    requires PyTruthy(GetOrNone(data, "user_id")) && PyTruthy(GetOrNone(data, "chat_id"))
    requires PyInt(GetOrNone(data, "user_id")) == Ok(userId)
    requires userId in subscribers
    ensures ToggleEffect(subscribers, Parsed(JObj(data))).subscribers == subscribers - {userId}
  {
  }

  /** After a successful toggle the status handler reports the new status. */
  lemma StatusAfterToggle(subscribers: Subscribers, data: map<string, Json>, userId: int)
    requires PyTruthy(GetOrNone(data, "user_id")) && PyTruthy(GetOrNone(data, "chat_id"))
    requires PyInt(GetOrNone(data, "user_id")) == Ok(userId)
    requires userId !in subscribers ==> PyInt(GetOrNone(data, "chat_id")).Ok?
    ensures var t := ToggleEffect(subscribers, Parsed(JObj(data)));
            StatusReply(t.subscribers, Some(IntToString(userId))) == Success(map["subscribed" := JBool(userId !in subscribers)])
  {
    PyIntOfDecimalText(userId);
  }
}
