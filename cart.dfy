/**
 * The shopping cart: a sequence of lines, one per product id, each a snapshot of the product and a
 * quantity. Adding a product already in the cart bumps its line; removing drops the whole line.
 */
module Cart {
  import opened Wrappers
  import opened Types
  import opened Seqs

  /** `cart.find(item => item.id === id)`, as the position of the line found. */
  function FindLine(cart: seq<CartItem>, id: string): (r: Option<nat>)
    ensures r.Some? ==> r.value < |cart| && cart[r.value].id == id
    ensures r.None? <==> forall j :: 0 <= j < |cart| ==> cart[j].id != id
  {
    FindFirst(cart, (c: CartItem) => c.id == id)
  }

  predicate HasLine(cart: seq<CartItem>, id: string)
    ensures HasLine(cart, id) <==> exists i :: 0 <= i < |cart| && cart[i].id == id
  {
    FindLine(cart, id).Some?
  }

  /** No two lines of the cart share a product id. */
  predicate UniqueLineIds(cart: seq<CartItem>)
  {
    forall i, j :: 0 <= i < |cart| && 0 <= j < |cart| && cart[i].id == cart[j].id ==> i == j
  }

  /** The shape every cart the store builds has: one line per id, each for at least one unit. */
  predicate WellFormed(cart: seq<CartItem>)
  {
    UniqueLineIds(cart) && forall i :: 0 <= i < |cart| ==> cart[i].quantity >= 1
  }

  /**
   * `cart.map(item => item.id === id ? { ...item, quantity: item.quantity + 1 } : item)`: the lines
   * with the id gain one unit and nothing else; the other lines are untouched.
   */
  function IncrementLines(cart: seq<CartItem>, id: string): (r: seq<CartItem>)
    ensures |r| == |cart|
    ensures forall i :: 0 <= i < |cart| && cart[i].id == id ==> r[i] == cart[i].(quantity := cart[i].quantity + 1)
    ensures forall i :: 0 <= i < |cart| && cart[i].id != id ==> r[i] == cart[i]
  {
    if cart == [] then []
    else [if cart[0].id == id then cart[0].(quantity := cart[0].quantity + 1) else cart[0]]
         + IncrementLines(cart[1..], id)
  }

  /** The cart after `addToCart(p)`: bump the line for `p.id` if there is one, else append a one-unit line. */
  function CartAdd(cart: seq<CartItem>, p: Product): seq<CartItem>
  {
    if HasLine(cart, p.id) then IncrementLines(cart, p.id) else cart + [WithQuantity(p, 1)]
  }

  /**
   * After an add a line for `p.id` is there, the cart grows by one line exactly when there was none,
   * and the lines already there keep their positions and ids.
   */
  lemma CartAddShape(cart: seq<CartItem>, p: Product)
    ensures HasLine(CartAdd(cart, p), p.id)
    ensures |CartAdd(cart, p)| == if HasLine(cart, p.id) then |cart| else |cart| + 1
    ensures forall i :: 0 <= i < |cart| ==> CartAdd(cart, p)[i].id == cart[i].id
  {
    var r := CartAdd(cart, p);
    if HasLine(cart, p.id) {
      var k := FindLine(cart, p.id).value;
      assert r[k].id == p.id;
    } else {
      assert r[|cart|].id == p.id;
    }
  }

  /** `cart.filter(item => item.id !== id)`. */
  function RemoveLines(cart: seq<CartItem>, id: string): (r: seq<CartItem>)
    ensures |r| <= |cart|
    ensures !HasLine(cart, id) ==> r == cart
  {
    Filter(cart, (c: CartItem) => c.id != id)
  }

  function LineTotal(c: CartItem): int
  {
    c.price * c.quantity
  }

  /** `cart.reduce((acc, item) => acc + item.price * item.quantity, 0)`. */
  function CartTotal(cart: seq<CartItem>): int
  {
    SumOf(cart, LineTotal)
  }

  function LineQuantity(c: CartItem): int
  {
    c.quantity
  }

  /** `cart.reduce((a, c) => a + c.quantity, 0)`: the number of units in the cart. */
  function QuantitySum(cart: seq<CartItem>): int
  {
    SumOf(cart, LineQuantity)
  }

  /** `n` successive calls of add-to-cart with the same product. */
  function AddRepeated(cart: seq<CartItem>, p: Product, n: nat): seq<CartItem>
    decreases n
  {
    if n == 0 then cart else CartAdd(AddRepeated(cart, p, n - 1), p)
  }

  /** With one line per id, adding a product that has a line bumps that one line by one unit. */
  lemma CartAddExisting(cart: seq<CartItem>, p: Product, k: nat)
    requires UniqueLineIds(cart) && k < |cart| && cart[k].id == p.id
    ensures CartAdd(cart, p) == cart[k := cart[k].(quantity := cart[k].quantity + 1)]
  {
    assert HasLine(cart, p.id) by {
      assert !(forall j :: 0 <= j < |cart| ==> cart[j].id != p.id);
    }
    var r := CartAdd(cart, p);
    forall i | 0 <= i < |cart| ensures r[i] == cart[k := cart[k].(quantity := cart[k].quantity + 1)][i] {
      if i != k {
        assert cart[i].id != p.id;
      }
    }
  }

  /** Adding a product with no line appends a fresh one-unit line made from the product's fields. */
  lemma CartAddNew(cart: seq<CartItem>, p: Product)
    requires !HasLine(cart, p.id)
    ensures CartAdd(cart, p) == cart + [WithQuantity(p, 1)]
  {
  }

  /** Adding keeps a cart well formed. */
  lemma CartAddWellFormed(cart: seq<CartItem>, p: Product)
    requires WellFormed(cart)
    ensures WellFormed(CartAdd(cart, p))
  {
    if HasLine(cart, p.id) {
      var k := FindLine(cart, p.id).value;
      CartAddExisting(cart, p, k);
    } else {
      var r := CartAdd(cart, p);
      assert r == cart + [WithQuantity(p, 1)];
      forall i, j | 0 <= i < |r| && 0 <= j < |r| && r[i].id == r[j].id ensures i == j {
        if i < |cart| && j < |cart| {
          assert cart[i].id == cart[j].id;
        }
      }
    }
  }

  /**
   * Removing leaves no line with the id, keeps every other line in its relative order, and keeps a
   * cart well formed.
   */
  lemma RemoveLinesProperties(cart: seq<CartItem>, id: string)
    ensures !HasLine(RemoveLines(cart, id), id)
    ensures forall j :: 0 <= j < |cart| && cart[j].id != id ==> cart[j] in RemoveLines(cart, id)
    ensures forall i :: 0 <= i < |RemoveLines(cart, id)| ==> RemoveLines(cart, id)[i] in cart
    ensures forall cs: seq<CartItem> {:trigger RemoveLines(cart + cs, id)} ::
              RemoveLines(cart + cs, id) == RemoveLines(cart, id) + RemoveLines(cs, id)
    ensures WellFormed(cart) ==> WellFormed(RemoveLines(cart, id))
  {
    var keep := (c: CartItem) => c.id != id;
    var r := RemoveLines(cart, id);
    FilterMembers(cart, keep);
    forall cs: seq<CartItem>
      ensures RemoveLines(cart + cs, id) == RemoveLines(cart, id) + RemoveLines(cs, id)
    {
      FilterAppend(cart, cs, keep);
    }
    if WellFormed(cart) {
      var key := (c: CartItem) => c.id;
      assert UniqueKeys(cart, key);
      FilterUniqueKeys(cart, keep, key);
      forall i | 0 <= i < |r| ensures r[i].quantity >= 1 {
        var k :| 0 <= k < |cart| && cart[k] == r[i];
      }
    }
  }

  /**
   * Cart aggregation: starting from a cart without a line for `p`, `n >= 1` adds of `p` give the same
   * cart with one extra line, for `p`, of quantity `n`.
   */
  lemma {:induction false} RepeatedAddsAggregate(cart: seq<CartItem>, p: Product, n: nat)
    requires !HasLine(cart, p.id) && n >= 1
    ensures AddRepeated(cart, p, n) == cart + [WithQuantity(p, n)]
  {
    if n > 1 {
      RepeatedAddsAggregate(cart, p, n - 1);
      AddToLastLine(cart, p, n - 1);
    }
  }

  /** When the only line for `p` is the last one, adding `p` bumps that last line. */
  lemma AddToLastLine(cart: seq<CartItem>, p: Product, q: int)
    requires !HasLine(cart, p.id)
    ensures CartAdd(cart + [WithQuantity(p, q)], p) == cart + [WithQuantity(p, q + 1)]
  {
    var c := cart + [WithQuantity(p, q)];
    assert c[|cart|].id == p.id;
    var r := IncrementLines(c, p.id);
    forall i | 0 <= i < |c| ensures r[i] == (cart + [WithQuantity(p, q + 1)])[i] {
      if i < |cart| {
        assert c[i] == cart[i];
      }
    }
  }

  /** From an empty cart, `n >= 1` adds of one product leave exactly one line, of quantity `n`. */
  lemma EmptyCartRepeatedAdds(p: Product, n: nat)
    requires n >= 1
    ensures AddRepeated([], p, n) == [WithQuantity(p, n)]
  {
    RepeatedAddsAggregate([], p, n);
  }

  /** With one line per id, `n` adds of a product already in the cart raise its line by `n` units. */
  lemma {:induction false} RepeatedAddsExisting(cart: seq<CartItem>, p: Product, k: nat, n: nat)
    requires UniqueLineIds(cart) && k < |cart| && cart[k].id == p.id
    ensures AddRepeated(cart, p, n) == cart[k := cart[k].(quantity := cart[k].quantity + n)]
  {
    if n > 0 {
      RepeatedAddsExisting(cart, p, k, n - 1);
      AddToBumpedLine(cart, p, k, cart[k].quantity + (n - 1));
    }
  }

  /** Adding `p` to a cart whose line for `p` has been set to `q` units sets it to `q + 1`. */
  lemma AddToBumpedLine(cart: seq<CartItem>, p: Product, k: nat, q: int)
    requires UniqueLineIds(cart) && k < |cart| && cart[k].id == p.id
    ensures CartAdd(cart[k := cart[k].(quantity := q)], p) == cart[k := cart[k].(quantity := q + 1)]
  {
    var c := cart[k := cart[k].(quantity := q)];
    QuantityChangeKeepsIds(cart, k, q);
    CartAddExisting(c, p, k);
  }

  /** Changing one line's quantity keeps the ids unique. */
  lemma QuantityChangeKeepsIds(cart: seq<CartItem>, k: nat, q: int)
    requires UniqueLineIds(cart) && k < |cart|
    ensures UniqueLineIds(cart[k := cart[k].(quantity := q)])
  {
    var c := cart[k := cart[k].(quantity := q)];
    forall i, j | 0 <= i < |c| && 0 <= j < |c| && c[i].id == c[j].id ensures i == j {
      assert cart[i].id == cart[j].id;
    }
  }

  /**
   * What an add does to the cart total: a new line adds the product's price; an existing line adds
   * the price stored in that line when it was created, whatever the product's price is now.
   */
  lemma CartAddTotal(cart: seq<CartItem>, p: Product)
    requires UniqueLineIds(cart)
    ensures !HasLine(cart, p.id) ==> CartTotal(CartAdd(cart, p)) == CartTotal(cart) + p.price
    ensures forall k :: 0 <= k < |cart| && cart[k].id == p.id ==>
              CartTotal(CartAdd(cart, p)) == CartTotal(cart) + cart[k].price
  {
    if HasLine(cart, p.id) {
      var k := FindLine(cart, p.id).value;
      var line := cart[k].(quantity := cart[k].quantity + 1);
      CartAddExisting(cart, p, k);
      SumOfUpdate(cart, k, line, LineTotal);
      OneMoreUnit(cart[k].price, cart[k].quantity);
      forall k' | 0 <= k' < |cart| && cart[k'].id == p.id ensures k' == k {
        assert cart[k'].id == cart[k].id;
      }
    } else {
      SumOfAppend(cart, [WithQuantity(p, 1)], LineTotal);
      SumOfSingleton(WithQuantity(p, 1), LineTotal);
    }
  }

  /** With one line per id, every add puts exactly one more unit in the cart. */
  lemma CartAddQuantity(cart: seq<CartItem>, p: Product)
    requires UniqueLineIds(cart)
    ensures QuantitySum(CartAdd(cart, p)) == QuantitySum(cart) + 1
  {
    if HasLine(cart, p.id) {
      var k := FindLine(cart, p.id).value;
      CartAddExisting(cart, p, k);
      SumOfUpdate(cart, k, cart[k].(quantity := cart[k].quantity + 1), LineQuantity);
    } else {
      SumOfAppend(cart, [WithQuantity(p, 1)], LineQuantity);
      SumOfSingleton(WithQuantity(p, 1), LineQuantity);
    }
  }

  /** A well-formed cart holds at least as many units as it has lines. */
  lemma QuantityAtLeastLines(cart: seq<CartItem>)
    requires WellFormed(cart)
    ensures QuantitySum(cart) >= |cart|
  {
    SumOfAtLeastLength(cart, LineQuantity);
  }

  lemma OneMoreUnit(price: int, quantity: int)
    ensures price * (quantity + 1) == price * quantity + price
  {
  }
}
