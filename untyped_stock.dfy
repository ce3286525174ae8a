/**
 * A product added from an empty buffer whose stock input was never typed into.
 *
 * As written, the save spreads the buffer into the product and fills in only id, category and image,
 * so an untouched stock stays `undefined`. The buyer's view then disagrees with itself: the label
 * test `stock > 0` is false ("Out of Stock") while the button test `stock <= 0` is also false (the
 * button is enabled). The members below give the save as written and the corrected save
 * (AdminPortal.SavedProduct, which stores the 0 the form displays) with the agreement it restores.
 */
module UntypedStock {
  import opened Wrappers
  import opened Types
  import opened AdminPortal
  import opened BuyerPortal

  /** The stock field of the product the save writes, as written: missing when the buffer lacks it. */
  function SavedStockAsWritten(d: Draft): Option<int>
  {
    d.stock
  }

  /** The button as written: enabled unless `stock <= 0`, and `undefined <= 0` is false. */
  predicate AddEnabledAsWritten(stock: Option<int>)
  {
    !(stock.Some? && stock.value <= 0)
  }

  /** The label as written: "In Stock" only when `stock > 0`, and `undefined > 0` is false. */
  predicate InStockAsWritten(stock: Option<int>)
  {
    stock.Some? && stock.value > 0
  }

  /** As written: a buffer without stock gives a product labelled "Out of Stock" that can still be added. */
  lemma UntouchedStockAsWritten(d: Draft)
    requires d.stock.None?
    ensures AddEnabledAsWritten(SavedStockAsWritten(d)) && !InStockAsWritten(SavedStockAsWritten(d))
  {
  }

  /**
   * Corrected: whatever the buffer held, the saved product's button is enabled exactly when its label
   * says "In Stock", and an untouched stock gives a product that is out of stock on both counts.
   */
  lemma SavedProductStockAgrees(d: Draft, nowMillis: nat)
    ensures CanAddToCart(SavedProduct(d, nowMillis)) <==> IsInStockLabel(StockLabel(SavedProduct(d, nowMillis)))
    ensures d.stock.None? ==>
              !CanAddToCart(SavedProduct(d, nowMillis)) && StockLabel(SavedProduct(d, nowMillis)) == OutOfStockLabel
  {
  }
}
