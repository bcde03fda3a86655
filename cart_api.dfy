/** The server's cart handlers: `get_cart`, which joins the user's cart rows
    with the cached catalog, and `add_to_cart_api`, `remove_from_cart_api` and
    `update_cart_quantity_api`, which validate the request and call the cart
    store. */
module CartApi {
  import opened Common
  import opened JsonValues
  import opened ResponseDecoding
  import opened PyValues

  /** A row of the cart table. */
  datatype CartRow = CartRow(productId: Json, quantity: int)

  /** A cached catalog entry as a product record. */
  type ProductRecord = map<string, Json>

  // ---------------------------------------------------------------------------
  // The product index `{p["id"]: p for p in products}`
  // ---------------------------------------------------------------------------

  /** `p["id"]` of one cached entry, usable as a dict key. */
  function EntryKey(p: Json): (r: Outcome<Json>)
    ensures r.Ok? <==> p.JObj? && "id" in p.fields && !p.fields["id"].JArr? && !p.fields["id"].JObj?
    ensures r.Ok? ==> r.value == p.fields["id"]
  {
    match p
    case JObj(fields) =>
      if "id" !in fields then Raise(KeyMissing("id"))
      else if fields["id"].JArr? || fields["id"].JObj? then Raise(Unhashable(TypeName(fields["id"])))
      else Ok(fields["id"])
    case _ => Raise(NotSubscriptable(TypeName(p)))
  }

  /** The comprehension, entry by entry: a later entry with the same id replaces
      an earlier one, and the first unusable entry raises. */
  function ProductIndex(products: seq<Json>): Outcome<map<Json, ProductRecord>>
    decreases |products|
  {
    if products == [] then Ok(map[])
    else
      match ProductIndex(products[..|products| - 1])
      case Raise(f) => Raise(f)
      case Ok(index) =>
        var p := products[|products| - 1];
        match EntryKey(p)
        case Raise(f) => Raise(f)
        case Ok(id) => Ok(index[id := p.fields])
  }

  /** Every entry of a catalog that indexes without raising has a usable id. */
  lemma {:induction false} IndexedEntriesHaveKeys(products: seq<Json>)
    requires ProductIndex(products).Ok?
    ensures forall j :: 0 <= j < |products| ==> EntryKey(products[j]).Ok?
    decreases |products|
  {
    if products != [] {
      var init := products[..|products| - 1];
      IndexedEntriesHaveKeys(init);
      assert forall j :: 0 <= j < |init| ==> products[j] == init[j];
    }
  }

  /** The index holds exactly the ids of the cached entries. */
  lemma {:induction false} IndexDomain(products: seq<Json>, id: Json)
    requires ProductIndex(products).Ok?
    ensures id in ProductIndex(products).value <==>
              exists j :: 0 <= j < |products| && EntryKey(products[j]) == Ok(id)
    decreases |products|
  {
    if products != [] {
      var init := products[..|products| - 1];
      var last := |products| - 1;
      IndexDomain(init, id);
      if id in ProductIndex(products).value && EntryKey(products[last]) != Ok(id) {
        var j :| 0 <= j < |init| && EntryKey(init[j]) == Ok(id);
        assert products[j] == init[j];
      }
      if j :| 0 <= j < |products| && EntryKey(products[j]) == Ok(id) {
        if j < last {
          assert init[j] == products[j];
        }
      }
    }
  }

  /** An id maps to the last cached entry that carries it. */
  lemma {:induction false} IndexLastWins(products: seq<Json>, j: nat)
    requires ProductIndex(products).Ok?
    requires j < |products| && EntryKey(products[j]).Ok?
    requires forall k :: j < k < |products| ==> EntryKey(products[k]) != EntryKey(products[j])
    ensures EntryKey(products[j]).value in ProductIndex(products).value
    ensures ProductIndex(products).value[EntryKey(products[j]).value] == products[j].fields
    decreases |products|
  {
    var last := |products| - 1;
    if j < last {
      var init := products[..last];
      assert init[j] == products[j];
      forall k | j < k < |init| ensures EntryKey(init[k]) != EntryKey(init[j]) {
        assert init[k] == products[k];
      }
      IndexLastWins(init, j);
    }
  }

  // ---------------------------------------------------------------------------
  // The join
  // ---------------------------------------------------------------------------

  /** A row of the reply's `cart`: the row's fields, the product and the subtotal. */
  datatype CartLine = CartLine(productId: Json, quantity: int, product: ProductRecord, subtotal: int)

  /** `price * quantity`, or 0 when `float(product.get("price", 0))` raises. */
  function LineSubtotal(product: ProductRecord, quantity: int): int {
    match PriceValue(GetOr(product, "price", JNum(0)))
    case Some(price) => price * quantity
    case None => 0
  }

  /** `products_dict.get(item['product_id'])` is a truthy dict. */
  predicate Known(row: CartRow, index: map<Json, ProductRecord>) {
    row.productId in index && index[row.productId] != map[]
  }

  function LineFor(row: CartRow, index: map<Json, ProductRecord>): CartLine
    requires row.productId in index
  {
    CartLine(row.productId, row.quantity, index[row.productId], LineSubtotal(index[row.productId], row.quantity))
  }

  /** The rows the join keeps. */
  function KnownRows(rows: seq<CartRow>, index: map<Json, ProductRecord>): (r: seq<CartRow>)
    ensures |r| <= |rows|
    ensures forall x :: x in r ==> x in rows && Known(x, index)
    ensures forall x :: x in rows && Known(x, index) ==> x in r
  {
    if rows == [] then []
    else
      var init := KnownRows(rows[..|rows| - 1], index);
      var last := rows[|rows| - 1];
      assert rows == rows[..|rows| - 1] + [last];
      if Known(last, index) then init + [last] else init
  }

  /** The join keeps cart order: joining a concatenation joins each part. */
  lemma {:induction false} KnownRowsAppend(a: seq<CartRow>, b: seq<CartRow>, index: map<Json, ProductRecord>)
    ensures KnownRows(a + b, index) == KnownRows(a, index) + KnownRows(b, index)
    decreases |b|
  {
    if b == [] {
      assert a + b == a;
    } else {
      var b' := b[..|b| - 1];
      assert (a + b)[..|a + b| - 1] == a + b';
      assert (a + b)[|a + b| - 1] == b[|b| - 1];
      KnownRowsAppend(a, b', index);
    }
  }

  function Enrich(rows: seq<CartRow>, index: map<Json, ProductRecord>): seq<CartLine> {
    if rows == [] then []
    else
      var init := Enrich(rows[..|rows| - 1], index);
      var last := rows[|rows| - 1];
      if Known(last, index) then init + [LineFor(last, index)] else init
  }

  function LinesTotal(lines: seq<CartLine>): int {
    if lines == [] then 0 else LinesTotal(lines[..|lines| - 1]) + lines[|lines| - 1].subtotal
  }

  /** The join keeps exactly the known rows, in row order, each with its own
      product and the subtotal of its price and quantity. */
  lemma {:induction false} EnrichIsKnownRows(rows: seq<CartRow>, index: map<Json, ProductRecord>)
    ensures var lines := Enrich(rows, index);
            var known := KnownRows(rows, index);
            |lines| == |known| &&
            forall i :: 0 <= i < |lines| ==> known[i].productId in index && lines[i] == LineFor(known[i], index)
    decreases |rows|
  {
    if rows != [] {
      EnrichIsKnownRows(rows[..|rows| - 1], index);
    }
  }

  /** The get_cart loop. */
  method JoinCart(rows: seq<CartRow>, index: map<Json, ProductRecord>) returns (lines: seq<CartLine>, total: int)
    ensures lines == Enrich(rows, index)
    ensures total == LinesTotal(lines)
  {
    lines := [];
    total := 0;
    var i := 0;
    while i < |rows|
      invariant 0 <= i <= |rows|
      invariant lines == Enrich(rows[..i], index)
      invariant total == LinesTotal(lines)
    {
      assert rows[..i + 1][..i] == rows[..i];
      var item := rows[i];
      if item.productId in index && index[item.productId] != map[] {
        var product := index[item.productId];
        var subtotal := LineSubtotal(product, item.quantity);
        assert (lines + [CartLine(item.productId, item.quantity, product, subtotal)])[..|lines|] == lines;
        lines := lines + [CartLine(item.productId, item.quantity, product, subtotal)];
        total := total + subtotal;
      }
      i := i + 1;
    }
    assert rows[..|rows|] == rows;
  }

  function LineJson(line: CartLine): Json {
    JObj(map["product_id" := line.productId, "quantity" := JNum(line.quantity),
             "product" := JObj(line.product), "subtotal" := JNum(line.subtotal)])
  }

  function LinesJson(lines: seq<CartLine>): (r: seq<Json>)
    ensures |r| == |lines|
  {
    seq(|lines|, i requires 0 <= i < |lines| => LineJson(lines[i]))
  }

  /** The rows of the cart table for a user; a user without rows has none. */
  function RowsOf(table: map<int, seq<CartRow>>, userId: int): seq<CartRow> {
    if userId in table then table[userId] else []
  }

  /** The product index, empty when the cache holds no catalog. */
  function CatalogIndex(cache: Option<seq<Json>>): Outcome<map<Json, ProductRecord>> {
    if cache.None? then Ok(map[]) else ProductIndex(cache.value)
  }

  /** `get_cart`: `user_id` from the query string, the user's rows from the cart
      table and the cached catalog. */
  method GetCart(userParam: Option<string>, table: map<int, seq<CartRow>>, cache: Option<seq<Json>>)
    returns (reply: Reply)
    ensures userParam.None? || userParam.value == "" ==> reply == Refused(400, "user_id required")
    ensures userParam.Some? && userParam.value != "" && PyInt(JStr(userParam.value)).Raise? ==>
              reply == Crash(PyInt(JStr(userParam.value)).fault)
    ensures userParam.Some? && userParam.value != "" && PyInt(JStr(userParam.value)).Ok? ==>
              var rows := RowsOf(table, PyInt(JStr(userParam.value)).value);
              match CatalogIndex(cache)
              case Raise(f) => reply == Crash(f)
              case Ok(index) =>
                reply == Success(map["cart" := JArr(LinesJson(Enrich(rows, index))),
                                     "total" := JNum(LinesTotal(Enrich(rows, index)))])
  {
    if userParam.None? || userParam.value == "" {
      return Refused(400, "user_id required");
    }
    var userId := PyInt(JStr(userParam.value));
    if userId.Raise? {
      return Crash(userId.fault);
    }
    var rows := RowsOf(table, userId.value);
    var index := CatalogIndex(cache);
    if index.Raise? {
      return Crash(index.fault);
    }
    var lines, total := JoinCart(rows, index.value);
    reply := Success(map["cart" := JArr(LinesJson(lines)), "total" := JNum(total)]);
  }

  // ---------------------------------------------------------------------------
  // Cart changes
  // ---------------------------------------------------------------------------

  /** The calls the handlers make into the cart store; the store receives
      `str(product_id)` of the value recorded here. */
  datatype CartCall =
    | AddOne(userId: int, productId: Json)
    | RemoveItem(userId: int, productId: Json)
    | SetQuantity(userId: int, productId: Json, quantity: int)

  /** A handler's reply together with the store calls it makes, in order. */
  datatype Effect = Effect(reply: Reply, calls: seq<CartCall>)

  function Repeat(c: CartCall, n: nat): (r: seq<CartCall>)
    ensures |r| == n && forall x :: x in r ==> x == c
  {
    if n == 0 then [] else Repeat(c, n - 1) + [c]
  }

  const IdsRequired: string := "user_id and product_id required"
  const IdsAndQuantityRequired: string := "user_id, product_id and quantity required"

  /** `add_to_cart_api`: `quantity` defaults to 1; `range(int(quantity))` is
      built first, and `int(user_id)` is evaluated on every iteration. */
  function AddEffect(body: Parse): (e: Effect)
    ensures e.reply.status in {200, 400, 500}
    ensures e.reply.status != 200 ==> e.calls == []
    ensures e.reply.status == 200 ==> e.reply == Success(map[])
    ensures e.calls != [] ==>
              BodyObject(body).Ok? &&
              PyInt(GetOrNone(BodyObject(body).value, "user_id")) == Ok(e.calls[0].userId) &&
              forall c :: c in e.calls ==> c == AddOne(e.calls[0].userId, GetOrNone(BodyObject(body).value, "product_id"))
  {
    match BodyObject(body)
    case Raise(f) => Effect(Crash(f), [])
    case Ok(data) =>
      var user := GetOrNone(data, "user_id");
      var product := GetOrNone(data, "product_id");
      var quantity := GetOr(data, "quantity", JNum(1));
      if !PyTruthy(user) || !PyTruthy(product) then Effect(Refused(400, IdsRequired), [])
      else
        match PyInt(quantity)
        case Raise(f) => Effect(Crash(f), [])
        case Ok(n) =>
          if n <= 0 then Effect(Success(map[]), [])
          else
            match PyInt(user)
            case Raise(f) => Effect(Crash(f), [])
            case Ok(userId) =>
              var calls := Repeat(AddOne(userId, product), n);
              assert calls[0] in calls;
              Effect(Success(map[]), calls)
  }

  /** `remove_from_cart_api`. */
  function RemoveEffect(body: Parse): (e: Effect)
    ensures e.reply.status in {200, 400, 500}
    ensures e.reply.status == 200 <==> |e.calls| == 1
    ensures e.reply.status != 200 ==> e.calls == []
    ensures |e.calls| == 1 ==>
              BodyObject(body).Ok? &&
              e.calls[0].RemoveItem? &&
              PyInt(GetOrNone(BodyObject(body).value, "user_id")) == Ok(e.calls[0].userId) &&
              e.calls[0].productId == GetOrNone(BodyObject(body).value, "product_id")
  {
    match BodyObject(body)
    case Raise(f) => Effect(Crash(f), [])
    case Ok(data) =>
      var user := GetOrNone(data, "user_id");
      var product := GetOrNone(data, "product_id");
      if !PyTruthy(user) || !PyTruthy(product) then Effect(Refused(400, IdsRequired), [])
      else
        match PyInt(user)
        case Raise(f) => Effect(Crash(f), [])
        case Ok(userId) => Effect(Success(map[]), [RemoveItem(userId, product)])
  }

  /** `update_cart_quantity_api`: a zero quantity passes the check, a missing or
      null one does not; the arguments convert left to right. */
  function UpdateEffect(body: Parse): (e: Effect)
    ensures e.reply.status in {200, 400, 500}
    ensures e.reply.status == 200 <==> |e.calls| == 1
    ensures e.reply.status != 200 ==> e.calls == []
    ensures |e.calls| == 1 ==>
              BodyObject(body).Ok? &&
              e.calls[0].SetQuantity? &&
              PyInt(GetOrNone(BodyObject(body).value, "user_id")) == Ok(e.calls[0].userId) &&
              e.calls[0].productId == GetOrNone(BodyObject(body).value, "product_id") &&
              PyInt(GetOrNone(BodyObject(body).value, "quantity")) == Ok(e.calls[0].quantity)
  {
    match BodyObject(body)
    case Raise(f) => Effect(Crash(f), [])
    case Ok(data) =>
      var user := GetOrNone(data, "user_id");
      var product := GetOrNone(data, "product_id");
      var quantity := GetOrNone(data, "quantity");
      if !PyTruthy(user) || !PyTruthy(product) || quantity.JNull? then Effect(Refused(400, IdsAndQuantityRequired), [])
      else
        match PyInt(user)
        case Raise(f) => Effect(Crash(f), [])
        case Ok(userId) =>
          match PyInt(quantity)
          case Raise(f) => Effect(Crash(f), [])
          case Ok(q) => Effect(Success(map[]), [SetQuantity(userId, product, q)])
  }

  /** The cart store as the handlers see it: the record of calls made to it. */
  class CartStore {
    var calls: seq<CartCall>

    constructor ()
      ensures calls == []
    {
      calls := [];
    }

    method AddToCart(body: Parse) returns (reply: Reply)
      modifies this
      ensures reply == AddEffect(body).reply
      ensures calls == old(calls) + AddEffect(body).calls
    {
      assert calls + [] == calls;
      var data := BodyObject(body);
      if data.Raise? {
        return Crash(data.fault);
      }
      var user := GetOrNone(data.value, "user_id");
      var product := GetOrNone(data.value, "product_id");
      var quantity := GetOr(data.value, "quantity", JNum(1));
      if !PyTruthy(user) || !PyTruthy(product) {
        return Refused(400, IdsRequired);
      }
      var count := PyInt(quantity);
      if count.Raise? {
        return Crash(count.fault);
      }
      var n := count.value;
      var i := 0;
      while i < n
        invariant 0 <= i <= (if n > 0 then n else 0)
        invariant i > 0 ==> PyInt(user).Ok?
        invariant calls == old(calls) + (if i > 0 then Repeat(AddOne(PyInt(user).value, product), i) else [])
      {
        var userId := PyInt(user);
        if userId.Raise? {
          return Crash(userId.fault);
        }
        calls := calls + [AddOne(userId.value, product)];
        i := i + 1;
      }
      assert body == Parsed(JObj(data.value));
      if n > 0 {
        assert i == n && PyInt(user).Ok?;
        assert AddEffect(body) == Effect(Success(map[]), Repeat(AddOne(PyInt(user).value, product), n));
      } else {
        assert AddEffect(body) == Effect(Success(map[]), []);
      }
      reply := Success(map[]);
    }

    method RemoveFromCart(body: Parse) returns (reply: Reply)
      modifies this
      ensures reply == RemoveEffect(body).reply
      ensures calls == old(calls) + RemoveEffect(body).calls
    {
      var data := BodyObject(body);
      if data.Raise? {
        return Crash(data.fault);
      }
      var user := GetOrNone(data.value, "user_id");
      var product := GetOrNone(data.value, "product_id");
      if !PyTruthy(user) || !PyTruthy(product) {
        return Refused(400, IdsRequired);
      }
      var userId := PyInt(user);
      if userId.Raise? {
        return Crash(userId.fault);
      }
      calls := calls + [RemoveItem(userId.value, product)];
      reply := Success(map[]);
    }

    method UpdateCartQuantity(body: Parse) returns (reply: Reply)
      modifies this
      ensures reply == UpdateEffect(body).reply
      ensures calls == old(calls) + UpdateEffect(body).calls
    {
      var data := BodyObject(body);
      if data.Raise? {
        return Crash(data.fault);
      }
      var user := GetOrNone(data.value, "user_id");
      var product := GetOrNone(data.value, "product_id");
      var quantity := GetOrNone(data.value, "quantity");
      if !PyTruthy(user) || !PyTruthy(product) || quantity.JNull? {
        return Refused(400, IdsAndQuantityRequired);
      }
      var userId := PyInt(user);
      if userId.Raise? {
        return Crash(userId.fault);
      }
      var q := PyInt(quantity);
      if q.Raise? {
        return Crash(q.fault);
      }
      calls := calls + [SetQuantity(userId.value, product, q.value)];
      reply := Success(map[]);
    }
  }

  // ---------------------------------------------------------------------------
  // Properties of the cart changes
  // ---------------------------------------------------------------------------

  /** A request without a truthy `user_id` and `product_id` is refused with 400
      before the store is called, by all three handlers. */
  lemma MissingIdsRefused(data: map<string, Json>)
    requires !PyTruthy(GetOrNone(data, "user_id")) || !PyTruthy(GetOrNone(data, "product_id"))
    ensures AddEffect(Parsed(JObj(data))) == Effect(Refused(400, IdsRequired), [])
    ensures RemoveEffect(Parsed(JObj(data))) == Effect(Refused(400, IdsRequired), [])
    ensures UpdateEffect(Parsed(JObj(data))) == Effect(Refused(400, IdsAndQuantityRequired), [])
  {
  }

  /** An update without a quantity (missing or null) is refused; a quantity of
      0 is passed to the store. */
  lemma UpdateNeedsQuantity(data: map<string, Json>, userId: int)
    requires PyTruthy(GetOrNone(data, "product_id")) && PyInt(GetOrNone(data, "user_id")) == Ok(userId)
    requires PyTruthy(GetOrNone(data, "user_id"))
    ensures "quantity" !in data || data["quantity"] == JNull ==>
              UpdateEffect(Parsed(JObj(data))) == Effect(Refused(400, IdsAndQuantityRequired), [])
    ensures "quantity" in data && data["quantity"] == JNum(0) ==>
              UpdateEffect(Parsed(JObj(data))).calls == [SetQuantity(userId, data["product_id"], 0)]
  {
  }

  /** With valid ids and a positive quantity `n`, the store's `add_to_cart` is
      called exactly `n` times, each for the same user and product; a missing
      quantity means one call. */
  lemma AddCallsQuantityTimes(data: map<string, Json>, userId: int, n: int)
    requires PyTruthy(GetOrNone(data, "user_id")) && PyTruthy(GetOrNone(data, "product_id"))
    requires PyInt(GetOrNone(data, "user_id")) == Ok(userId)
    requires PyInt(GetOr(data, "quantity", JNum(1))) == Ok(n) && n > 0
    ensures var e := AddEffect(Parsed(JObj(data)));
            e.reply == Success(map[]) && |e.calls| == n &&
            forall c :: c in e.calls ==> c == AddOne(userId, data["product_id"])
    ensures "quantity" !in data ==> |AddEffect(Parsed(JObj(data))).calls| == 1
  {
  }

  /** A quantity of 0 or less adds nothing and still reports success, even when
      `user_id` is not a number: the loop never runs, so `int(user_id)` is never
      evaluated. */
  lemma AddNothingForNonPositiveQuantity(data: map<string, Json>, n: int)
    requires PyTruthy(GetOrNone(data, "user_id")) && PyTruthy(GetOrNone(data, "product_id"))
    requires PyInt(GetOr(data, "quantity", JNum(1))) == Ok(n) && n <= 0
    ensures AddEffect(Parsed(JObj(data))) == Effect(Success(map[]), [])
  {
  }
}
