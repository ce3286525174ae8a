/**
 * The client-side store: products, orders, cart and the two session flags, and the operations that
 * replace them. Every operation computes the new value of a slot from the old one with the sequence
 * functions of Catalog, Cart and Orders, and writes nothing else.
 */
module StoreContext {
  import opened Wrappers
  import opened Types
  import opened Seqs
  import opened Catalog
  import opened Cart
  import opened Orders

  /** The one passphrase that opens the admin portal. */
  const AdminPassword: string := "admin123"

  /** The starter catalog used when nothing was saved. */
  const InitialProducts: seq<Product> := [
    Product("1", "Neural Link Hub", "Next-gen cognitive interface for seamless device control.",
            1299, 15, "https://images.unsplash.com/photo-1550745165-9bc0b252726f?w=400", "Hardware"),
    Product("2", "Aero-Frame Glasses", "Ultra-lightweight AR display with 4K resolution.",
            899, 24, "https://images.unsplash.com/photo-1572635196237-14b3f281503f?w=400", "Wearables"),
    Product("3", "Void-Sound Earbuds", "Absolute silence with active sonic cancellation.",
            299, 50, "https://images.unsplash.com/photo-1590658268037-6bf12165a8df?w=400", "Audio")
  ]

  /** Login succeeds on exactly the passphrase: no trimming, no case folding. */
  predicate PasswordAccepted(password: string)
  {
    password == AdminPassword
  }

  /** The empty string, and every string with an upper-case ASCII letter, is refused. */
  lemma CaseVariantsRejected(password: string)
    ensures !PasswordAccepted("")
    ensures (exists i :: 0 <= i < |password| && 'A' <= password[i] <= 'Z') ==> !PasswordAccepted(password)
  {
    if exists i :: 0 <= i < |password| && 'A' <= password[i] <= 'Z' {
      var i :| 0 <= i < |password| && 'A' <= password[i] <= 'Z';
      if password == AdminPassword {
        assert password[i] in AdminPassword;
      }
    }
  }

  /** The starter catalog has three products with distinct ids, all in stock. */
  lemma InitialProductsWellFormed()
    ensures |InitialProducts| == 3 && UniqueIds(InitialProducts)
    ensures forall i :: 0 <= i < |InitialProducts| ==> InitialProducts[i].stock > 0 && InitialProducts[i].price > 0
  {
  }

  class Store {
    var products: seq<Product>
    var orders: seq<Order>
    var cart: seq<CartItem>
    var activePortal: Portal
    var isAdmin: bool

    /** The cart has one line per product id, each for at least one unit. */
    ghost predicate Valid()
      reads this`cart
    {
      WellFormed(cart)
    }

    /**
     * Start-up: the saved products and orders when there are any (already parsed), else the starter
     * catalog and no orders; an empty cart, the buyer portal, not signed in.
     */
    constructor (savedProducts: Option<seq<Product>>, savedOrders: Option<seq<Order>>)
      ensures Valid()
      ensures products == savedProducts.GetOr(InitialProducts)
      ensures orders == savedOrders.GetOr([])
      ensures cart == [] && activePortal == Buyer && !isAdmin
    {
      products := savedProducts.GetOr(InitialProducts);
      orders := savedOrders.GetOr([]);
      cart := [];
      activePortal := Buyer;
      isAdmin := false;
    }

    /** Switches the portal; the store does not check that the session is an admin one. */
    method SetPortal(portal: Portal)
      modifies this`activePortal
      ensures activePortal == portal
    {
      activePortal := portal;
    }

    /** True and signed in exactly for the passphrase; any other string leaves the flag as it was. */
    method Login(password: string) returns (ok: bool)
      modifies this`isAdmin
      ensures ok == PasswordAccepted(password)
      ensures isAdmin == (old(isAdmin) || ok)
    {
      if password == AdminPassword {
        isAdmin := true;
        return true;
      }
      return false;
    }

    /** Signs out and returns to the buyer portal; products, orders and cart are untouched. */
    method Logout()
      modifies this`isAdmin, this`activePortal
      ensures !isAdmin && activePortal == Buyer
    {
      isAdmin := false;
      activePortal := Buyer;
    }

    /** Appends the product as given: no id is generated and no uniqueness is checked. */
    method AddProduct(p: Product)
      modifies this`products
      ensures products == old(products) + [p]
    {
      products := products + [p];
    }

    method UpdateProduct(p: Product)
      modifies this`products
      ensures products == ReplaceProduct(old(products), p)
    {
      products := ReplaceProduct(products, p);
    }

    /** Removes the products with the id; cart lines and orders that copied them keep their copies. */
    method DeleteProduct(id: string)
      modifies this`products
      ensures products == RemoveProduct(old(products), id)
    {
      products := RemoveProduct(products, id);
    }

    /** Bumps the product's line or appends a one-unit line. There is no stock check here. */
    method AddToCart(p: Product)
      requires Valid()
      modifies this`cart
      ensures Valid()
      ensures cart == CartAdd(old(cart), p)
    {
      CartAddWellFormed(cart, p);
      var existing := FindLine(cart, p.id);
      if existing.Some? {
        cart := IncrementLines(cart, p.id);
      } else {
        cart := cart + [WithQuantity(p, 1)];
      }
    }

    method RemoveFromCart(id: string)
      requires Valid()
      modifies this`cart
      ensures Valid()
      ensures cart == RemoveLines(old(cart), id)
    {
      RemoveLinesProperties(cart, id);
      cart := RemoveLines(cart, id);
    }

    /**
     * Checkout. The new order goes in front, carrying the cart, its total, status Pending and the
     * name as given (the store does not reject an empty name); older orders follow unchanged; the
     * cart is emptied; product stock is not touched.
     */
    method PlaceOrder(customerName: string, randomBase36: string, date: string)
      modifies this`orders, this`cart
      ensures Valid() && cart == []
      ensures orders == [NewOrder(OrderId(randomBase36), old(cart), customerName, date)] + old(orders)
      ensures orders[0].items == old(cart) && orders[0].total == CartTotal(old(cart))
      ensures orders[0].status == Pending && orders[0].customerName == customerName
      ensures orders[1..] == old(orders)
      ensures products == old(products)
    {
      var total := CartTotal(cart);
      var order := Order(OrderId(randomBase36), cart, total, Pending, customerName, date);
      orders := [order] + orders;
      cart := [];
    }

    method UpdateOrderStatus(orderId: string, status: OrderStatus)
      modifies this`orders
      ensures orders == SetStatus(old(orders), orderId, status)
    {
      orders := SetStatus(orders, orderId, status);
    }
  }

  /**
   * The checkout walk-through on the starter catalog: adding product "1" twice and product "2" once
   * gives two lines of 2 and 1 units, and their total is 2 * 1299 + 899 = 3497.
   */
  lemma StarterCheckoutTotal()
    ensures AddRepeated([], InitialProducts[0], 2) == [WithQuantity(InitialProducts[0], 2)]
    ensures CartAdd([WithQuantity(InitialProducts[0], 2)], InitialProducts[1])
            == [WithQuantity(InitialProducts[0], 2), WithQuantity(InitialProducts[1], 1)]
    ensures CartTotal([WithQuantity(InitialProducts[0], 2), WithQuantity(InitialProducts[1], 1)]) == 3497
  {
    EmptyCartRepeatedAdds(InitialProducts[0], 2);
    var first := [WithQuantity(InitialProducts[0], 2)];
    assert !HasLine(first, "2");
    CartAddNew(first, InitialProducts[1]);
    SumOfAppend(first, [WithQuantity(InitialProducts[1], 1)], LineTotal);
    SumOfSingleton(WithQuantity(InitialProducts[0], 2), LineTotal);
    SumOfSingleton(WithQuantity(InitialProducts[1], 1), LineTotal);
  }
}
