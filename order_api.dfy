/** The order handler `submit_order_api`: the order total over the user's cart
    and the cached catalog, the delivery charge, then the order record, then the
    cleared cart. */
module OrderApi {
  import opened Common
  import opened JsonValues
  import opened ResponseDecoding
  import opened PyValues
  import opened CartApi

  /** `price * quantity` for a row whose product is known and whose price
      parses; the `except (ValueError, TypeError): pass` adds nothing. */
  function RowCharge(row: CartRow, index: map<Json, ProductRecord>): int {
    if Known(row, index) then
      match PriceValue(GetOr(index[row.productId], "price", JNum(0)))
      case Some(price) => price * row.quantity
      case None => 0
    else 0
  }

  function OrderSubtotal(rows: seq<CartRow>, index: map<Json, ProductRecord>): int {
    if rows == [] then 0 else OrderSubtotal(rows[..|rows| - 1], index) + RowCharge(rows[|rows| - 1], index)
  }

  /** The summing loop of `submit_order_api`. */
  method SumOrder(rows: seq<CartRow>, index: map<Json, ProductRecord>) returns (total: int)
    ensures total == OrderSubtotal(rows, index)
  {
    total := 0;
    var i := 0;
    while i < |rows|
      invariant 0 <= i <= |rows|
      invariant total == OrderSubtotal(rows[..i], index)
    {
      assert rows[..i + 1][..i] == rows[..i];
      var productId := rows[i].productId;
      var quantity := rows[i].quantity;
      if productId in index && index[productId] != map[] {
        var price := PriceValue(GetOr(index[productId], "price", JNum(0)));
        if price.Some? {
          total := total + price.value * quantity;
        }
      }
      i := i + 1;
    }
    assert rows[..|rows|] == rows;
  }

  /** The order is charged what the cart showed: the order's subtotal is the
      `total` that `get_cart` reports for the same rows and catalog. */
  lemma {:induction false} OrderSubtotalIsCartTotal(rows: seq<CartRow>, index: map<Json, ProductRecord>)
    ensures OrderSubtotal(rows, index) == LinesTotal(Enrich(rows, index))
    decreases |rows|
  {
    if rows != [] {
      var init := rows[..|rows| - 1];
      var last := rows[|rows| - 1];
      OrderSubtotalIsCartTotal(init, index);
      var lines := Enrich(init, index);
      if Known(last, index) {
        assert (lines + [LineFor(last, index)])[..|lines|] == lines;
      }
    }
  }

  /** A saved order: the user, the client's order data and the charged total. */
  datatype Order = Order(userId: int, orderData: Json, total: int)

  /** The store calls in the order they are made. */
  datatype OrderEvent = OrderSaved(orderId: int) | CartCleared(userId: int)

  const OrderFieldsRequired: string := "user_id and order_data required"

  /** The checks `submit_order_api` makes before it saves anything, in source
      order: the body, the two required fields, `int(user_id)` and the catalog
      index. */
  datatype Admission = Rejected(reply: Reply) | Admitted(userId: int, orderData: Json, index: map<Json, ProductRecord>)

  function AdmitOrder(body: Parse, cache: Option<seq<Json>>): Admission {
    match BodyObject(body)
    case Raise(f) => Rejected(Crash(f))
    case Ok(data) =>
      var user := GetOrNone(data, "user_id");
      var orderData := GetOrNone(data, "order_data");
      if !PyTruthy(user) || !PyTruthy(orderData) then Rejected(Refused(400, OrderFieldsRequired))
      else
        match PyInt(user)
        case Raise(f) => Rejected(Crash(f))
        case Ok(userId) =>
          match CatalogIndex(cache)
          case Raise(f) => Rejected(Crash(f))
          case Ok(index) => Admitted(userId, orderData, index)
  }

  /** An order without a truthy `user_id` and `order_data` is refused with 400;
      one whose `user_id` is not a number fails with 500. */
  lemma OrderFieldsChecked(data: map<string, Json>, cache: Option<seq<Json>>)
    ensures !PyTruthy(GetOrNone(data, "user_id")) || !PyTruthy(GetOrNone(data, "order_data")) ==>
              AdmitOrder(Parsed(JObj(data)), cache) == Rejected(Refused(400, OrderFieldsRequired))
    ensures PyTruthy(GetOrNone(data, "user_id")) && PyTruthy(GetOrNone(data, "order_data")) &&
            PyInt(GetOrNone(data, "user_id")).Raise? ==>
              AdmitOrder(Parsed(JObj(data)), cache).Rejected? &&
              AdmitOrder(Parsed(JObj(data)), cache).reply.status == 500
  {
  }

  /** The order and cart stores as `submit_order_api` uses them; order ids are
      given out in sequence, from 1. */
  class OrderDesk {
    var carts: map<int, seq<CartRow>>
    var orders: seq<Order>
    var events: seq<OrderEvent>

    constructor (initialCarts: map<int, seq<CartRow>>)
      ensures carts == initialCarts && orders == [] && events == []
    {
      carts := initialCarts;
      orders := [];
      events := [];
    }

    /** `delivery` is `calculate_delivery_cost`. */
    method SubmitOrder(body: Parse, cache: Option<seq<Json>>, delivery: int -> int) returns (reply: Reply)
      modifies this
      ensures match AdmitOrder(body, cache)
              case Rejected(r) =>
                reply == r && carts == old(carts) && orders == old(orders) && events == old(events)
              case Admitted(userId, orderData, index) =>
                var subtotal := OrderSubtotal(RowsOf(old(carts), userId), index);
                orders == old(orders) + [Order(userId, orderData, subtotal + delivery(subtotal))] &&
                events == old(events) + [OrderSaved(|orders|), CartCleared(userId)] &&
                carts == old(carts)[userId := []] &&
                reply == Success(map["order_id" := JNum(|orders|)])
    {
      var admission := AdmitOrder(body, cache);
      if admission.Rejected? {
        return admission.reply;
      }
      var userId := admission.userId;
      var rows := RowsOf(carts, userId);
      var total := SumOrder(rows, admission.index);
      var totalWithDelivery := total + delivery(total);
      // save_order, then clear_cart
      orders := orders + [Order(userId, admission.orderData, totalWithDelivery)];
      var orderId := |orders|;
      events := events + [OrderSaved(orderId)];
      carts := carts[userId := []];
      events := events + [CartCleared(userId)];
      reply := Success(map["order_id" := JNum(orderId)]);
    }
  }
}
