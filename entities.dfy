/**
 * The storefront's data model: product snapshots, cart lines, users, addresses and orders.
 * Prices are integers in the smallest currency unit; ratings are integers in tenths of a star.
 */
module Entities {
  import opened Seqs

  datatype Product = Product(
    id: int,
    title: string,
    price: int,
    originalPrice: int,
    image: string,
    rating: int,
    reviewCount: int,
    isPrime: bool,
    category: string,
    inStock: bool)

  /** A product snapshot with the quantity the shopper wants. */
  datatype CartLine = CartLine(product: Product, quantity: int)

  /** The signed-in user; `createdAt` is the clock reading in milliseconds. */
  datatype User = User(id: string, email: string, name: string, createdAt: nat)

  datatype Address = Address(name: string, address: string, city: string, state: string, zip: string, country: string)

  /** Timestamps are clock readings in milliseconds. */
  datatype Order = Order(
    id: string,
    sessionId: string,
    items: seq<CartLine>,
    total: int,
    status: string,
    shippingAddress: Address,
    paymentMethod: string,
    createdAt: nat,
    estimatedDelivery: nat)

  /** `list.some(item => item.id === id)`. */
  predicate HasProduct(ps: seq<Product>, id: int) {
    exists i :: 0 <= i < |ps| && ps[i].id == id
  }

  /** No two entries share a product id. */
  predicate UniqueIds(ps: seq<Product>) {
    forall i, j :: 0 <= i < j < |ps| ==> ps[i].id != ps[j].id
  }

  /** The test `item => item.id !== id`. */
  function IdIsNot(id: int): Product -> bool {
    (p: Product) => p.id != id
  }

  /** `list.filter(item => item.id !== id)`. */
  function WithoutProduct(ps: seq<Product>, id: int): (r: seq<Product>)
    ensures !HasProduct(r, id)
    ensures forall i :: 0 <= i < |ps| && ps[i].id != id ==> ps[i] in r
    ensures forall p :: p in r ==> p in ps
    ensures IsSubsequence(r, ps)
  {
    FilterIsSubsequence(ps, IdIsNot(id));
    Filter(ps, IdIsNot(id))
  }

  lemma FilterKeepsUniqueIds(ps: seq<Product>, f: Product -> bool)
    requires UniqueIds(ps)
    ensures UniqueIds(Filter(ps, f))
  {
    var id := (p: Product) => p.id;
    assert DistinctBy(ps, id);
    FilterKeepsDistinct(ps, f, id);
    var r := Filter(ps, f);
    assert forall i, j :: 0 <= i < j < |r| ==> id(r[i]) != id(r[j]);
  }

  lemma WithoutProductKeepsUniqueIds(ps: seq<Product>, id: int)
    requires UniqueIds(ps)
    ensures UniqueIds(WithoutProduct(ps, id))
  {
    FilterKeepsUniqueIds(ps, IdIsNot(id));
  }

  /** Removing an id that is not there changes nothing. */
  lemma WithoutAbsentProduct(ps: seq<Product>, id: int)
    requires !HasProduct(ps, id)
    ensures WithoutProduct(ps, id) == ps
  {
    FilterKeepsAll(ps, IdIsNot(id));
  }

  /** Appending a product whose id is new keeps ids unique. */
  lemma AppendKeepsUniqueIds(ps: seq<Product>, p: Product)
    requires UniqueIds(ps) && !HasProduct(ps, p.id)
    ensures UniqueIds(ps + [p])
  {
    var r := ps + [p];
    forall i, j | 0 <= i < j < |r| ensures r[i].id != r[j].id {
      if j == |ps| { assert r[i] == ps[i]; }
    }
  }
}
