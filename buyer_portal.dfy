/**
 * The buyer's view of the store: which products can be added, what the stock label says, the cart
 * badge, the cart total, and the checkout form that refuses an empty name.
 */
module BuyerPortal {
  import opened Wrappers
  import opened Types
  import opened Text
  import opened Cart
  import opened Orders
  import opened StoreContext

  /** `disabled={product.stock <= 0}`, read the other way round. The store itself never checks stock. */
  predicate CanAddToCart(p: Product)
  {
    !(p.stock <= 0)
  }

  const InStockPrefix: string := "In Stock: "
  const OutOfStockLabel: string := "Out of Stock"

  /** Whether a label is the in-stock one. */
  predicate IsInStockLabel(shown: string)
  {
    |shown| >= |InStockPrefix| && shown[..|InStockPrefix|] == InStockPrefix
  }

  /**
   * The stock label: "In Stock: n" when the button is enabled, "Out of Stock" otherwise; the number
   * after the prefix reads back as the stock.
   */
  function StockLabel(p: Product): (shown: string)
    ensures CanAddToCart(p) <==> IsInStockLabel(shown)
    ensures !CanAddToCart(p) ==> shown == OutOfStockLabel
    ensures CanAddToCart(p) ==> |shown| > |InStockPrefix| && shown[|InStockPrefix|] != '0'
    ensures CanAddToCart(p) ==>
              (forall i :: |InStockPrefix| <= i < |shown| ==> IsDigit(shown[i]))
              && DecimalValue(shown[|InStockPrefix|..]) == p.stock
  {
    if p.stock > 0 then
      var digits := DecimalDigits(p.stock);
      DecimalRoundTrip(p.stock);
      var shown := InStockPrefix + digits;
      assert shown[|InStockPrefix|..] == digits;
      shown
    else
      assert OutOfStockLabel[..|InStockPrefix|] != InStockPrefix by {
        assert OutOfStockLabel[0] != InStockPrefix[0];
      }
      OutOfStockLabel
  }

  /** The badge on the cart button: the number of units, shown only when the cart has a line. */
  function CartBadge(cart: seq<CartItem>): (badge: Option<int>)
    ensures badge.Some? <==> |cart| > 0
  {
    if |cart| > 0 then Some(QuantitySum(cart)) else None
  }

  /**
   * On a cart the store built, a shown badge is at least the number of lines (so never zero), and
   * each add-to-cart raises it by exactly one.
   */
  lemma CartBadgeCountsUnits(cart: seq<CartItem>, p: Product)
    requires WellFormed(cart)
    ensures CartBadge(cart).Some? ==> CartBadge(cart).value >= |cart| >= 1
    ensures CartBadge(CartAdd(cart, p)) == Some(CartBadge(cart).GetOr(0) + 1)
  {
    QuantityAtLeastLines(cart);
    CartAddQuantity(cart, p);
    CartAddShape(cart, p);
    if |cart| == 0 {
      assert QuantitySum(cart) == 0;
    }
  }

  /**
   * The view's state beside the store: the name typed into the checkout form and whether the
   * confirmation is showing.
   */
  class BuyerView {
    const store: Store
    var checkoutName: string
    var orderConfirmed: bool

    constructor (store: Store)
      ensures this.store == store && checkoutName == "" && !orderConfirmed
    {
      this.store := store;
      checkoutName := "";
      orderConfirmed := false;
    }

    method EnterName(name: string)
      modifies this`checkoutName
      ensures checkoutName == name
    {
      checkoutName := name;
    }

    /** The Add-to-Cart button: a product out of stock cannot be added from here. */
    method ClickAddToCart(p: Product)
      requires store.Valid()
      modifies store`cart
      ensures store.Valid()
      ensures store.cart == if CanAddToCart(p) then CartAdd(old(store.cart), p) else old(store.cart)
    {
      if !(p.stock <= 0) {
        store.AddToCart(p);
      }
    }

    /**
     * Submitting the checkout form: with no name, nothing happens; otherwise one order is placed,
     * charged exactly the total the view showed, the confirmation shows and the name field is cleared.
     */
    method HandlePlaceOrder(randomBase36: string, date: string)
      requires store.Valid()
      modifies this`checkoutName, this`orderConfirmed, store`orders, store`cart
      ensures store.Valid()
      ensures old(checkoutName) == "" ==>
                checkoutName == "" && orderConfirmed == old(orderConfirmed)
                && store.orders == old(store.orders) && store.cart == old(store.cart)
      ensures old(checkoutName) != "" ==>
                store.orders == [NewOrder(OrderId(randomBase36), old(store.cart), old(checkoutName), date)] + old(store.orders)
                && store.orders[0].total == CartTotal(old(store.cart))
                && store.cart == [] && checkoutName == "" && orderConfirmed
    {
      if checkoutName == "" {
        return;
      }
      store.PlaceOrder(checkoutName, randomBase36, date);
      orderConfirmed := true;
      checkoutName := "";
    }
  }
}
