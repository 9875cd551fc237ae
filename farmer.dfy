/** The farmer-scoped views of the `products`, `orders` and `reviews`
    lists, the ownership lookups of the update and delete handlers, and
    what each store change does to every farmer's view. */
module Farmer {
  import opened Wrappers
  import opened Records
  import Seqs

  function OwnsProduct(f: int): Product -> bool {
    (p: Product) => p.farmerId == f
  }

  function OwnsOrder(f: int): Order -> bool {
    (o: Order) => o.farmerId == f
  }

  function OwnsReview(f: int): Review -> bool {
    (r: Review) => r.farmerId == f
  }

  /** `products.filter(p => p.farmerId === farmerId)` */
  function ProductsOf(ps: seq<Product>, f: int): (r: seq<Product>)
    ensures forall k :: 0 <= k < |r| ==> r[k].farmerId == f
  {
    Seqs.Filter(ps, OwnsProduct(f))
  }

  /** `orders.filter(o => o.farmerId === farmerId)` */
  function OrdersOf(os: seq<Order>, f: int): (r: seq<Order>)
    ensures forall k :: 0 <= k < |r| ==> r[k].farmerId == f
  {
    Seqs.Filter(os, OwnsOrder(f))
  }

  /** `reviews.filter(r => r.farmerId === farmerId)` */
  function ReviewsOf(rs: seq<Review>, f: int): (r: seq<Review>)
    ensures forall k :: 0 <= k < |r| ==> r[k].farmerId == f
  {
    Seqs.Filter(rs, OwnsReview(f))
  }

  /** `products.findIndex(p => p.id === productId && p.farmerId === farmerId)`;
      an id that parsed to NaN (None) equals nothing. */
  function ProductSlot(ps: seq<Product>, id: Option<int>, f: int): (i: int)
    ensures -1 <= i < |ps|
    ensures i != -1 ==> id == Some(ps[i].id) && ps[i].farmerId == f
  {
    Seqs.FindIndex(ps, (p: Product) => id == Some(p.id) && p.farmerId == f)
  }

  /** `orders.findIndex(o => o.id === orderId && o.farmerId === farmerId)` */
  function OrderSlot(os: seq<Order>, id: Option<int>, f: int): (i: int)
    ensures -1 <= i < |os|
    ensures i != -1 ==> id == Some(os[i].id) && os[i].farmerId == f
  {
    Seqs.FindIndex(os, (o: Order) => id == Some(o.id) && o.farmerId == f)
  }

  /** The product the update handler writes back: the old record with the
      seven body fields replaced and `updatedAt` stamped. */
  function Revised(p: Product, details: ProductDetails, now: string): (q: Product)
    ensures q.id == p.id && q.farmerId == p.farmerId && q.createdAt == p.createdAt
  {
    p.(details := details, updatedAt := Some(now))
  }

  /** The order after the status handler: `status` overwritten verbatim and
      `updatedAt` stamped. */
  function WithStatus(o: Order, status: string, now: string): (q: Order)
    ensures q.id == o.id && q.farmerId == o.farmerId && q.total == o.total && q.details == o.details
  {
    o.(status := status, updatedAt := Some(now))
  }

  /** A farmer's view lists exactly that farmer's records, each as often as
      the store holds it, in store order. */
  lemma ProductsOfExact(ps: seq<Product>, f: int, x: Product)
    ensures forall k :: 0 <= k < |ProductsOf(ps, f)| ==> ProductsOf(ps, f)[k].farmerId == f
    ensures multiset(ProductsOf(ps, f))[x] == if x.farmerId == f then multiset(ps)[x] else 0
    ensures Seqs.IsSubsequence(ProductsOf(ps, f), ps)
  {
    Seqs.FilterCounts(ps, OwnsProduct(f), x);
    Seqs.FilterIsSubsequence(ps, OwnsProduct(f));
  }

  /** The lookup of the update and delete handlers finds a product exactly
      when the caller owns one with that id, and then the first such. */
  lemma ProductSlotOwned(ps: seq<Product>, id: Option<int>, f: int)
    ensures var i := ProductSlot(ps, id, f);
      (i == -1 <==> forall k :: 0 <= k < |ps| ==> !(id == Some(ps[k].id) && ps[k].farmerId == f)) &&
      (i != -1 ==> 0 <= i < |ps| && id == Some(ps[i].id) && ps[i].farmerId == f &&
                   forall k :: 0 <= k < i ==> !(id == Some(ps[k].id) && ps[k].farmerId == f))
  {
    var i := ProductSlot(ps, id, f);
    var p := (q: Product) => id == Some(q.id) && q.farmerId == f;
    assert forall k :: 0 <= k < |ps| ==> (p(ps[k]) <==> id == Some(ps[k].id) && ps[k].farmerId == f);
  }

  /** The lookup of the status handler finds an order exactly when the
      caller owns one with that id, and then the first such. */
  lemma OrderSlotOwned(os: seq<Order>, id: Option<int>, f: int)
    ensures var i := OrderSlot(os, id, f);
      (i == -1 <==> forall k :: 0 <= k < |os| ==> !(id == Some(os[k].id) && os[k].farmerId == f)) &&
      (i != -1 ==> 0 <= i < |os| && id == Some(os[i].id) && os[i].farmerId == f &&
                   forall k :: 0 <= k < i ==> !(id == Some(os[k].id) && os[k].farmerId == f))
  {
    var p := (o: Order) => id == Some(o.id) && o.farmerId == f;
    assert forall k :: 0 <= k < |os| ==> (p(os[k]) <==> id == Some(os[k].id) && os[k].farmerId == f);
  }

  /** A product id that only other farmers own is indistinguishable from a
      missing one, and so is an id that did not parse. */
  lemma ForeignProductNotFound(ps: seq<Product>, id: Option<int>, f: int)
    requires forall k :: 0 <= k < |ps| && id == Some(ps[k].id) ==> ps[k].farmerId != f
    ensures ProductSlot(ps, id, f) == -1
  {
    ProductSlotOwned(ps, id, f);
  }

  /** Adding a product extends its owner's view by it and leaves every other
      farmer's view as it was. */
  lemma {:induction false} ProductsOfAfterAdd(ps: seq<Product>, p: Product, g: int)
    ensures ProductsOf(ps + [p], g) ==
      if p.farmerId == g then ProductsOf(ps, g) + [p] else ProductsOf(ps, g)
  {
    Seqs.FilterPush(ps, p, OwnsProduct(g));
  }

  /** Deleting the product at position i removes exactly it from its owner's
      view and leaves every other farmer's view as it was. */
  lemma {:induction false} ProductsOfAfterDelete(ps: seq<Product>, i: int, g: int)
    requires 0 <= i < |ps|
    ensures ps[i].farmerId != g ==> ProductsOf(Seqs.RemoveAt(ps, i), g) == ProductsOf(ps, g)
    ensures ps[i].farmerId == g ==> |ProductsOf(Seqs.RemoveAt(ps, i), g)| == |ProductsOf(ps, g)| - 1
  {
    Seqs.FilterRemoveAt(ps, i, OwnsProduct(g));
  }

  /** Updating the product at position i changes no farmer's product count,
      and no view but its owner's. */
  lemma {:induction false} ProductsOfAfterUpdate(ps: seq<Product>, i: int, details: ProductDetails, now: string, g: int)
    requires 0 <= i < |ps|
    ensures |ProductsOf(ps[i := Revised(ps[i], details, now)], g)| == |ProductsOf(ps, g)|
    ensures ps[i].farmerId != g ==> ProductsOf(ps[i := Revised(ps[i], details, now)], g) == ProductsOf(ps, g)
  {
    Seqs.FilterUpdate(ps, i, Revised(ps[i], details, now), OwnsProduct(g));
  }

  /** Changing the status of the order at position i changes no farmer's
      order count, and no view but its owner's. */
  lemma {:induction false} OrdersOfAfterStatus(os: seq<Order>, i: int, status: string, now: string, g: int)
    requires 0 <= i < |os|
    ensures |OrdersOf(os[i := WithStatus(os[i], status, now)], g)| == |OrdersOf(os, g)|
    ensures os[i].farmerId != g ==> OrdersOf(os[i := WithStatus(os[i], status, now)], g) == OrdersOf(os, g)
  {
    Seqs.FilterUpdate(os, i, WithStatus(os[i], status, now), OwnsOrder(g));
  }
}
