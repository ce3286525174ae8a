/**
 * The admin's view of the store: the product edit buffer and its save (defaults, then update or
 * insert), and the four dashboard figures.
 */
module AdminPortal {
  import opened Wrappers
  import opened Types
  import opened Seqs
  import opened Text
  import opened Catalog
  import opened Cart
  import opened Orders
  import opened StoreContext

  const DefaultCategory: string := "Uncategorized"
  const DefaultImage: string := "https://images.unsplash.com/photo-1523275335684-37898b6baf30?w=400"

  /** The edit buffer: a product with any field possibly missing. */
  datatype Draft = Draft(
    id: Option<string>,
    name: Option<string>,
    description: Option<string>,
    price: Option<int>,
    stock: Option<int>,
    image: Option<string>,
    category: Option<string>)

  /** "+ Add Product" opens an empty buffer. */
  const EmptyDraft: Draft := Draft(None, None, None, None, None, None, None)

  /** "Edit" opens a buffer holding every field of the product. */
  function DraftOf(p: Product): Draft
  {
    Draft(Some(p.id), Some(p.name), Some(p.description), Some(p.price), Some(p.stock), Some(p.image), Some(p.category))
  }

  /** JavaScript's `value || fallback` on an optional string: missing and empty both fall back. */
  function OrElse(value: Option<string>, fallback: string): string
  {
    if value.Some? && value.value != "" then value.value else fallback
  }

  /**
   * The product a save writes. The id is the buffer's unless missing or empty, in which case it is
   * the current time in milliseconds written in decimal; an empty or missing category becomes
   * "Uncategorized" and an empty or missing image the default picture; a price or stock never typed
   * in is 0, the value the form shows for it.
   */
  function SavedProduct(d: Draft, nowMillis: nat): (p: Product)
    ensures p.id != "" && p.category != "" && p.image != ""
    ensures d.id.Some? && d.id.value != "" ==> p.id == d.id.value
    ensures d.id.None? || d.id.value == "" ==> p.id == DecimalDigits(nowMillis)
    ensures d.category.Some? && d.category.value != "" ==> p.category == d.category.value
    ensures d.category.None? || d.category.value == "" ==> p.category == DefaultCategory
    ensures d.image.Some? && d.image.value != "" ==> p.image == d.image.value
    ensures d.image.None? || d.image.value == "" ==> p.image == DefaultImage
    ensures d.name.Some? ==> p.name == d.name.value
    ensures d.description.Some? ==> p.description == d.description.value
    ensures p.price == d.price.GetOr(0) && p.stock == d.stock.GetOr(0)
  {
    Product(
      OrElse(d.id, DecimalDigits(nowMillis)),
      d.name.GetOr(""),
      d.description.GetOr(""),
      d.price.GetOr(0),
      d.stock.GetOr(0),
      OrElse(d.image, DefaultImage),
      OrElse(d.category, DefaultCategory))
  }

  /** Opening a product for editing and saving it untouched writes back the same product. */
  lemma SaveUntouchedRoundTrip(p: Product, nowMillis: nat)
    requires p.id != "" && p.category != "" && p.image != ""
    ensures SavedProduct(DraftOf(p), nowMillis) == p
  {
  }

  /**
   * The save's choice: `updateProduct` when some product already has the id, `addProduct` otherwise.
   */
  function Upsert(ps: seq<Product>, prod: Product): seq<Product>
  {
    if HasProduct(ps, prod.id) then ReplaceProduct(ps, prod) else ps + [prod]
  }

  /**
   * After a save the saved product is in the list, every product with its id is the saved product,
   * the others are unchanged in place, the inventory grows only for a new id, and unique ids stay
   * unique, so that exactly one product carries the id.
   */
  lemma UpsertStoresSaved(ps: seq<Product>, prod: Product)
    ensures HasProduct(Upsert(ps, prod), prod.id)
    ensures forall i :: 0 <= i < |Upsert(ps, prod)| && Upsert(ps, prod)[i].id == prod.id ==> Upsert(ps, prod)[i] == prod
    ensures forall i :: 0 <= i < |ps| && ps[i].id != prod.id ==> Upsert(ps, prod)[i] == ps[i]
    ensures InventoryCount(Upsert(ps, prod)) == if HasProduct(ps, prod.id) then InventoryCount(ps) else InventoryCount(ps) + 1
    ensures UniqueIds(ps) ==> UniqueIds(Upsert(ps, prod))
  {
    var r := Upsert(ps, prod);
    if HasProduct(ps, prod.id) {
      ReplaceProductProperties(ps, prod);
      var k :| 0 <= k < |ps| && ps[k].id == prod.id;
      assert r[k].id == prod.id;
    } else {
      assert r[|ps|] == prod;
      forall i | 0 <= i < |r| && r[i].id == prod.id ensures r[i] == prod {
        assert i == |ps|;
      }
      if UniqueIds(ps) {
        forall i, j | 0 <= i < |r| && 0 <= j < |r| && r[i].id == r[j].id ensures i == j {
          if i < |ps| && j < |ps| {
            assert ps[i].id == ps[j].id;
          }
        }
      }
    }
  }

  /** With unique ids, saving a product opened for editing and left untouched changes nothing. */
  lemma SaveUntouchedIsNoOp(ps: seq<Product>, k: nat, nowMillis: nat)
    requires UniqueIds(ps) && k < |ps|
    requires ps[k].id != "" && ps[k].category != "" && ps[k].image != ""
    ensures Upsert(ps, SavedProduct(DraftOf(ps[k]), nowMillis)) == ps
  {
    SaveUntouchedRoundTrip(ps[k], nowMillis);
    var r := Upsert(ps, ps[k]);
    assert HasProduct(ps, ps[k].id);
    forall i | 0 <= i < |ps| ensures r[i] == ps[i] {
      if ps[i].id == ps[k].id {
        assert i == k;
      }
    }
  }

  function OrderTotal(o: Order): int { o.total }

  function OrderLines(o: Order): int { |o.items| }

  /** "Total Revenue": the sum of the frozen totals of all orders, whatever their status. */
  function TotalRevenue(orders: seq<Order>): int
  {
    SumOf(orders, OrderTotal)
  }

  /** "Products Sold": the number of cart lines over all orders, not the number of units. */
  function ProductsSold(orders: seq<Order>): int
  {
    SumOf(orders, OrderLines)
  }

  /** "Pending Orders". */
  function PendingCount(orders: seq<Order>): nat
  {
    |Filter(orders, (o: Order) => o.status == Pending)|
  }

  /** "Inventory Count". */
  function InventoryCount(products: seq<Product>): nat
  {
    |products|
  }

  /**
   * A checkout adds the cart total to the revenue, the number of cart lines to "Products Sold", and one
   * to the pending count.
   */
  lemma CheckoutDashboard(orders: seq<Order>, id: string, cart: seq<CartItem>, customerName: string, date: string)
    ensures TotalRevenue([NewOrder(id, cart, customerName, date)] + orders) == TotalRevenue(orders) + CartTotal(cart)
    ensures ProductsSold([NewOrder(id, cart, customerName, date)] + orders) == ProductsSold(orders) + |cart|
    ensures PendingCount([NewOrder(id, cart, customerName, date)] + orders) == PendingCount(orders) + 1
  {
    var o := NewOrder(id, cart, customerName, date);
    SumOfCons(o, orders, OrderTotal);
    SumOfCons(o, orders, OrderLines);
    var pending := (o: Order) => o.status == Pending;
    FilterAppend([o], orders, pending);
    assert Filter([o], pending) == [o];
  }

  /**
   * Changing a status never moves the revenue or "Products Sold" (a cancelled order still counts).
   * Setting Pending can only raise the pending count and any other status can only lower it; an id
   * that matches no order leaves it as it was.
   */
  lemma StatusChangeDashboard(orders: seq<Order>, orderId: string, status: OrderStatus)
    ensures TotalRevenue(SetStatus(orders, orderId, status)) == TotalRevenue(orders)
    ensures ProductsSold(SetStatus(orders, orderId, status)) == ProductsSold(orders)
    ensures status == Pending ==> PendingCount(SetStatus(orders, orderId, status)) >= PendingCount(orders)
    ensures status != Pending ==> PendingCount(SetStatus(orders, orderId, status)) <= PendingCount(orders)
    ensures (forall i :: 0 <= i < |orders| ==> orders[i].id != orderId) ==>
              PendingCount(SetStatus(orders, orderId, status)) == PendingCount(orders)
  {
    var r := SetStatus(orders, orderId, status);
    SumOfPointwise(r, OrderTotal, orders, OrderTotal);
    SumOfPointwise(r, OrderLines, orders, OrderLines);
    var pending := (o: Order) => o.status == Pending;
    if status == Pending {
      FilterLengthMonotone(orders, pending, r, pending);
    } else {
      FilterLengthMonotone(r, pending, orders, pending);
    }
    SetStatusOnlyStatus(orders, orderId, status);
  }

  /**
   * "Products Sold" counts lines: `n` adds of one product and a checkout raise it by one, while the
   * revenue rises by `n` times the price.
   */
  lemma ProductsSoldCountsLines(orders: seq<Order>, p: Product, n: nat, id: string, customerName: string, date: string)
    requires n >= 1
    ensures ProductsSold([NewOrder(id, AddRepeated([], p, n), customerName, date)] + orders) == ProductsSold(orders) + 1
    ensures TotalRevenue([NewOrder(id, AddRepeated([], p, n), customerName, date)] + orders)
            == TotalRevenue(orders) + p.price * n
  {
    EmptyCartRepeatedAdds(p, n);
    CheckoutDashboard(orders, id, AddRepeated([], p, n), customerName, date);
    SumOfSingleton(WithQuantity(p, n), LineTotal);
  }

  /** The view's state beside the store: the product being edited, if any. */
  class AdminView {
    const store: Store
    var editing: Option<Draft>

    constructor (store: Store)
      ensures this.store == store && editing.None?
    {
      this.store := store;
      editing := None;
    }

    method StartAdd()
      modifies this`editing
      ensures editing == Some(EmptyDraft)
    {
      editing := Some(EmptyDraft);
    }

    method StartEdit(p: Product)
      modifies this`editing
      ensures editing == Some(DraftOf(p))
    {
      editing := Some(DraftOf(p));
    }

    method CancelEdit()
      modifies this`editing
      ensures editing.None?
    {
      editing := None;
    }

    /**
     * Saving: nothing happens without a buffer; otherwise the filled-in product is updated or inserted
     * and the buffer closes. Cart and orders are never touched.
     */
    method HandleSaveProduct(nowMillis: nat)
      modifies this`editing, store`products
      ensures editing.None?
      ensures old(editing).None? ==> store.products == old(store.products)
      ensures old(editing).Some? ==>
                store.products == Upsert(old(store.products), SavedProduct(old(editing).value, nowMillis))
    {
      if editing.None? {
        return;
      }
      var prod := SavedProduct(editing.value, nowMillis);
      if HasProduct(store.products, prod.id) {
        store.UpdateProduct(prod);
      } else {
        store.AddProduct(prod);
      }
      editing := None;
    }
  }
}
