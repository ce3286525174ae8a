/** Orders: how a new order is made from the cart, and how an order's status is changed. */
module Orders {
  import opened Types
  import opened Text
  import opened Cart

  /**
   * The generated order id: "ORD-" followed by the characters at positions 2..10 of a base-36 random
   * number's text (the part after "0."), upper-cased. At most nine characters follow the prefix.
   */
  function OrderId(randomBase36: string): (id: string)
    ensures 4 <= |id| <= 13 && id[..4] == "ORD-"
    ensures forall i :: 4 <= i < |id| ==> !IsLowerAscii(id[i])
    ensures |id| == 13 <==> |randomBase36| >= 11
    ensures |id| == 4 + (if |randomBase36| <= 2 then 0 else if |randomBase36| - 2 < 9 then |randomBase36| - 2 else 9)
    ensures forall i :: 4 <= i < |id| ==> i - 2 < |randomBase36| && id[i] == UpperChar(randomBase36[i - 2])
    ensures forall i :: 4 <= i < |id| ==> i - 2 < |randomBase36| && (IsDigit(randomBase36[i - 2]) ==> id[i] == randomBase36[i - 2])
  {
    var suffix := Substr(randomBase36, 2, 9);
    var upper := ToUpperAscii(suffix);
    var id := "ORD-" + upper;
    assert forall i :: 4 <= i < |id| ==> id[i] == upper[i - 4];
    id
  }

  /** The order checkout creates: the cart itself as its items, the cart total frozen, status Pending. */
  function NewOrder(id: string, cart: seq<CartItem>, customerName: string, date: string): Order
  {
    Order(id, cart, CartTotal(cart), Pending, customerName, date)
  }

  /**
   * `orders.map(o => o.id === orderId ? { ...o, status } : o)`: matching orders take the new status and
   * keep every other field; the other orders are untouched.
   */
  function SetStatus(orders: seq<Order>, orderId: string, status: OrderStatus): (r: seq<Order>)
    ensures |r| == |orders|
    ensures forall i :: 0 <= i < |orders| && orders[i].id == orderId ==> r[i] == orders[i].(status := status)
    ensures forall i :: 0 <= i < |orders| && orders[i].id != orderId ==> r[i] == orders[i]
  {
    if orders == [] then []
    else [if orders[0].id == orderId then orders[0].(status := status) else orders[0]]
         + SetStatus(orders[1..], orderId, status)
  }

  /**
   * Only the status field ever changes: ids, items, totals, names and dates are the same afterwards,
   * and an id that matches no order changes nothing.
   */
  lemma SetStatusOnlyStatus(orders: seq<Order>, orderId: string, status: OrderStatus)
    ensures forall i :: 0 <= i < |orders| ==>
              SetStatus(orders, orderId, status)[i].(status := orders[i].status) == orders[i]
    ensures (forall i :: 0 <= i < |orders| ==> orders[i].id != orderId) ==> SetStatus(orders, orderId, status) == orders
  {
  }

  /** Any status may follow any other: the last status set wins, so setting the same one twice is setting it once. */
  lemma SetStatusLastWins(orders: seq<Order>, orderId: string, first: OrderStatus, second: OrderStatus)
    ensures SetStatus(SetStatus(orders, orderId, first), orderId, second) == SetStatus(orders, orderId, second)
    ensures SetStatus(SetStatus(orders, orderId, second), orderId, second) == SetStatus(orders, orderId, second)
  {
    var once := SetStatus(orders, orderId, first);
    assert forall i :: 0 <= i < |orders| ==> once[i].id == orders[i].id;
  }
}
