/** The product list and the three ways the store rewrites it: append, replace by id, remove by id. */
module Catalog {
  import opened Wrappers
  import opened Types
  import opened Seqs

  /** Whether `products.find(p => p.id === id)` finds something. */
  predicate HasProduct(ps: seq<Product>, id: string)
    ensures HasProduct(ps, id) <==> exists i :: 0 <= i < |ps| && ps[i].id == id
  {
    FindFirst(ps, (p: Product) => p.id == id).Some?
  }

  /** No two products share an id. The store itself never checks this. */
  predicate UniqueIds(ps: seq<Product>)
  {
    UniqueKeys(ps, (p: Product) => p.id)
  }

  /**
   * `products.map(x => x.id === p.id ? p : x)`: every product with the id of `p` becomes `p`,
   * every other product stays where and what it was.
   */
  function ReplaceProduct(ps: seq<Product>, p: Product): (r: seq<Product>)
    ensures |r| == |ps|
    ensures forall i :: 0 <= i < |ps| && ps[i].id == p.id ==> r[i] == p
    ensures forall i :: 0 <= i < |ps| && ps[i].id != p.id ==> r[i] == ps[i]
  {
    if ps == [] then []
    else [if ps[0].id == p.id then p else ps[0]] + ReplaceProduct(ps[1..], p)
  }

  /** `products.filter(x => x.id !== id)`. */
  function RemoveProduct(ps: seq<Product>, id: string): (r: seq<Product>)
    ensures |r| <= |ps|
    ensures !HasProduct(ps, id) ==> r == ps
  {
    Filter(ps, (p: Product) => p.id != id)
  }

  /** Replacing keeps the ids in place, so it keeps them unique; without a match nothing changes. */
  lemma ReplaceProductProperties(ps: seq<Product>, p: Product)
    ensures forall i :: 0 <= i < |ps| ==> ReplaceProduct(ps, p)[i].id == ps[i].id
    ensures UniqueIds(ps) ==> UniqueIds(ReplaceProduct(ps, p))
    ensures !HasProduct(ps, p.id) ==> ReplaceProduct(ps, p) == ps
    ensures ReplaceProduct(ReplaceProduct(ps, p), p) == ReplaceProduct(ps, p)
  {
    var r := ReplaceProduct(ps, p);
    assert forall i :: 0 <= i < |ps| ==> r[i].id == ps[i].id;
    if !HasProduct(ps, p.id) {
      assert forall i :: 0 <= i < |ps| ==> r[i] == ps[i];
    }
  }

  /**
   * After a delete no product carries the id, every other product survives, and the survivors keep
   * their relative order (deleting from a concatenation deletes from each part).
   */
  lemma RemoveProductProperties(ps: seq<Product>, id: string)
    ensures !HasProduct(RemoveProduct(ps, id), id)
    ensures forall j :: 0 <= j < |ps| && ps[j].id != id ==> ps[j] in RemoveProduct(ps, id)
    ensures forall i :: 0 <= i < |RemoveProduct(ps, id)| ==> RemoveProduct(ps, id)[i] in ps
    ensures UniqueIds(ps) ==> UniqueIds(RemoveProduct(ps, id))
    ensures forall qs: seq<Product> {:trigger RemoveProduct(ps + qs, id)} ::
              RemoveProduct(ps + qs, id) == RemoveProduct(ps, id) + RemoveProduct(qs, id)
  {
    var keep := (p: Product) => p.id != id;
    FilterMembers(ps, keep);
    forall qs: seq<Product> ensures RemoveProduct(ps + qs, id) == RemoveProduct(ps, id) + RemoveProduct(qs, id) {
      FilterAppend(ps, qs, keep);
    }
    if UniqueIds(ps) {
      FilterUniqueKeys(ps, keep, (p: Product) => p.id);
    }
  }
}
