/**
 * The cart store: one line per product with a quantity of at least 1, the derived count and
 * total, and the optimistic add / remove / update / clear operations mirrored to local storage.
 */
module Cart {
  import opened Wrappers
  import opened Seqs
  import opened Entities
  import opened Storage
  import opened Remote

  predicate HasLine(lines: seq<CartLine>, id: int) {
    exists i :: 0 <= i < |lines| && lines[i].product.id == id
  }

  /** At most one line per product id. */
  predicate UniqueLines(lines: seq<CartLine>) {
    forall i, j :: 0 <= i < j < |lines| ==> lines[i].product.id != lines[j].product.id
  }

  predicate QuantitiesPositive(lines: seq<CartLine>) {
    forall i :: 0 <= i < |lines| ==> lines[i].quantity >= 1
  }

  /** `cartCount`: the sum of the quantities. */
  function Count(lines: seq<CartLine>): int {
    if lines == [] then 0 else lines[0].quantity + Count(lines[1..])
  }

  /** `cartTotal`: the sum of price × quantity. */
  function Total(lines: seq<CartLine>): int {
    if lines == [] then 0 else lines[0].product.price * lines[0].quantity + Total(lines[1..])
  }

  lemma {:induction false} SumsAppend(a: seq<CartLine>, b: seq<CartLine>)
    ensures Count(a + b) == Count(a) + Count(b)
    ensures Total(a + b) == Total(a) + Total(b)
    decreases |a|
  {
    if a == [] {
      assert a + b == b;
    } else {
      assert (a + b)[1..] == a[1..] + b;
      SumsAppend(a[1..], b);
    }
  }

  /** `prevCart.map(item => item.id === id ? {...item, quantity: item.quantity + 1} : item)`. */
  function Bump(lines: seq<CartLine>, id: int): (r: seq<CartLine>)
    ensures |r| == |lines|
    ensures forall i :: 0 <= i < |lines| ==>
      r[i] == if lines[i].product.id == id then CartLine(lines[i].product, lines[i].quantity + 1) else lines[i]
  {
    if lines == [] then []
    else
      [if lines[0].product.id == id then CartLine(lines[0].product, lines[0].quantity + 1) else lines[0]]
      + Bump(lines[1..], id)
  }

  /** `prevCart.map(item => item.id === id ? {...item, quantity: q} : item)`. */
  function SetQuantity(lines: seq<CartLine>, id: int, q: int): (r: seq<CartLine>)
    ensures |r| == |lines|
    ensures forall i :: 0 <= i < |lines| ==>
      r[i] == if lines[i].product.id == id then CartLine(lines[i].product, q) else lines[i]
  {
    if lines == [] then []
    else
      [if lines[0].product.id == id then CartLine(lines[0].product, q) else lines[0]]
      + SetQuantity(lines[1..], id, q)
  }

  function LineIdIsNot(id: int): CartLine -> bool {
    (l: CartLine) => l.product.id != id
  }

  /** The cart after `addToCart(product)`. */
  function AddLine(lines: seq<CartLine>, p: Product): (r: seq<CartLine>)
    ensures HasLine(r, p.id)
    ensures |r| == |lines| + (if HasLine(lines, p.id) then 0 else 1)
  {
    if HasLine(lines, p.id) then
      assert HasLine(Bump(lines, p.id), p.id) by {
        var i :| 0 <= i < |lines| && lines[i].product.id == p.id;
        assert Bump(lines, p.id)[i].product.id == p.id;
      }
      Bump(lines, p.id)
    else
      var r := lines + [CartLine(p, 1)];
      assert r[|lines|].product.id == p.id;
      r
  }

  /** The cart after `removeFromCart(id)`: `prevCart.filter(item => item.id !== id)`. */
  function RemoveLines(lines: seq<CartLine>, id: int): (r: seq<CartLine>)
    ensures !HasLine(r, id)
    ensures forall i :: 0 <= i < |lines| && lines[i].product.id != id ==> lines[i] in r
    ensures forall l :: l in r ==> l in lines
    ensures IsSubsequence(r, lines)
  {
    FilterIsSubsequence(lines, LineIdIsNot(id));
    Filter(lines, LineIdIsNot(id))
  }

  /** The cart after `updateQuantity(id, q)`: a quantity below 1 removes the line. */
  function UpdateLines(lines: seq<CartLine>, id: int, q: int): (r: seq<CartLine>)
    ensures q < 1 ==> !HasLine(r, id) && |r| <= |lines|
    ensures q >= 1 ==> |r| == |lines| && (HasLine(r, id) <==> HasLine(lines, id))
  {
    if q < 1 then RemoveLines(lines, id) else SetQuantity(lines, id, q)
  }

  // ---------------------------------------------------------------- adding

  /**
   * Adding a product already in the cart raises that line's quantity by exactly 1 and leaves
   * every other line, and the order, as it was; a new product is appended with quantity 1.
   */
  lemma AddLineShape(lines: seq<CartLine>, p: Product)
    requires UniqueLines(lines)
    ensures var r := AddLine(lines, p);
      && (HasLine(lines, p.id) ==>
            |r| == |lines| &&
            exists k :: 0 <= k < |lines| && lines[k].product.id == p.id &&
              r[k] == CartLine(lines[k].product, lines[k].quantity + 1) &&
              forall i :: 0 <= i < |lines| && i != k ==> r[i] == lines[i])
      && (!HasLine(lines, p.id) ==> r == lines + [CartLine(p, 1)])
  {
    if HasLine(lines, p.id) {
      var k :| 0 <= k < |lines| && lines[k].product.id == p.id;
      var r := AddLine(lines, p);
      forall i | 0 <= i < |lines| && i != k ensures r[i] == lines[i] {
        if i < k { assert lines[i].product.id != lines[k].product.id; }
        else { assert lines[k].product.id != lines[i].product.id; }
      }
    }
  }

  lemma {:induction false} BumpAbsent(lines: seq<CartLine>, id: int)
    requires !HasLine(lines, id)
    ensures Bump(lines, id) == lines
  {
    var r := Bump(lines, id);
    assert forall i :: 0 <= i < |lines| ==> r[i] == lines[i];
  }

  lemma {:induction false} BumpSums(lines: seq<CartLine>, id: int)
    requires UniqueLines(lines)
    ensures forall k :: 0 <= k < |lines| && lines[k].product.id == id ==>
      Count(Bump(lines, id)) == Count(lines) + 1 &&
      Total(Bump(lines, id)) == Total(lines) + lines[k].product.price
    decreases |lines|
  {
    if lines != [] {
      var rest := lines[1..];
      assert UniqueLines(rest);
      assert Bump(lines, id)[1..] == Bump(rest, id);
      if lines[0].product.id == id {
        forall k | 0 < k < |lines| ensures lines[k].product.id != id {
          assert lines[0].product.id != lines[k].product.id;
        }
        assert forall j :: 0 <= j < |rest| ==> rest[j] == lines[j + 1];
        BumpAbsent(rest, id);
      } else {
        BumpSums(rest, id);
        forall k | 0 <= k < |lines| && lines[k].product.id == id
          ensures Count(Bump(lines, id)) == Count(lines) + 1
          ensures Total(Bump(lines, id)) == Total(lines) + lines[k].product.price
        {
          assert k > 0 && rest[k - 1] == lines[k];
        }
      }
    }
  }

  /**
   * With one line per product, adding raises `cartCount` by 1 and `cartTotal` by the price of
   * the line's product snapshot (the new product's price when it was not in the cart).
   */
  lemma AddLineSums(lines: seq<CartLine>, p: Product)
    requires UniqueLines(lines)
    ensures Count(AddLine(lines, p)) == Count(lines) + 1
    ensures !HasLine(lines, p.id) ==> Total(AddLine(lines, p)) == Total(lines) + p.price
    ensures forall k :: 0 <= k < |lines| && lines[k].product.id == p.id ==>
      Total(AddLine(lines, p)) == Total(lines) + lines[k].product.price
  {
    if HasLine(lines, p.id) {
      BumpSums(lines, p.id);
      assert AddLine(lines, p) == Bump(lines, p.id);
    } else {
      var one := [CartLine(p, 1)];
      SumsAppend(lines, one);
      assert one[1..] == [];
      assert Count(one) == 1 && Total(one) == p.price;
      assert AddLine(lines, p) == lines + one;
    }
  }

  /** Adding P to an empty cart gives count 1 and total P.price. */
  lemma AddToEmptyCart(p: Product)
    ensures AddLine([], p) == [CartLine(p, 1)]
    ensures Count(AddLine([], p)) == 1 && Total(AddLine([], p)) == p.price
  {
  }

  /** Adding a new product twice gives a single line with quantity 2. */
  lemma AddTwice(lines: seq<CartLine>, p: Product)
    requires !HasLine(lines, p.id)
    ensures AddLine(AddLine(lines, p), p) == lines + [CartLine(p, 2)]
  {
    var once := lines + [CartLine(p, 1)];
    assert once[|lines|].product.id == p.id;
    var twice := AddLine(once, p);
    assert |twice| == |lines| + 1;
    forall i | 0 <= i < |twice| ensures twice[i] == (lines + [CartLine(p, 2)])[i] {
      if i < |lines| { assert once[i] == lines[i]; }
    }
  }

  lemma AddKeepsInvariants(lines: seq<CartLine>, p: Product)
    ensures UniqueLines(lines) ==> UniqueLines(AddLine(lines, p))
    ensures QuantitiesPositive(lines) ==> QuantitiesPositive(AddLine(lines, p))
  {
    var r := AddLine(lines, p);
    if !HasLine(lines, p.id) {
      if UniqueLines(lines) {
        forall i, j | 0 <= i < j < |r| ensures r[i].product.id != r[j].product.id {
          if j == |lines| { assert r[i] == lines[i]; }
        }
      }
    }
  }

  // ---------------------------------------------------------------- removing and updating

  lemma RemoveKeepsInvariants(lines: seq<CartLine>, id: int)
    ensures UniqueLines(lines) ==> UniqueLines(RemoveLines(lines, id))
    ensures QuantitiesPositive(lines) ==> QuantitiesPositive(RemoveLines(lines, id))
  {
    var r := RemoveLines(lines, id);
    if UniqueLines(lines) {
      FilterKeepsUniqueLines(lines, LineIdIsNot(id));
    }
    if QuantitiesPositive(lines) {
      forall i | 0 <= i < |r| ensures r[i].quantity >= 1 {
        assert r[i] in lines;
      }
    }
  }

  lemma FilterKeepsUniqueLines(lines: seq<CartLine>, f: CartLine -> bool)
    requires UniqueLines(lines)
    ensures UniqueLines(Filter(lines, f))
  {
    var id := (l: CartLine) => l.product.id;
    assert DistinctBy(lines, id);
    FilterKeepsDistinct(lines, f, id);
    var r := Filter(lines, f);
    assert forall i, j :: 0 <= i < j < |r| ==> id(r[i]) != id(r[j]);
  }

  /** Removing a product that is not in the cart changes nothing. */
  lemma RemoveAbsent(lines: seq<CartLine>, id: int)
    requires !HasLine(lines, id)
    ensures RemoveLines(lines, id) == lines
  {
    FilterKeepsAll(lines, LineIdIsNot(id));
  }

  /**
   * `updateQuantity(id, q)`: below 1 it is exactly `removeFromCart(id)`; otherwise only the
   * matching line's quantity becomes q, and a product that is not in the cart leaves it unchanged.
   */
  lemma UpdateLinesShape(lines: seq<CartLine>, id: int, q: int)
    ensures q < 1 ==> UpdateLines(lines, id, q) == RemoveLines(lines, id)
    ensures q >= 1 ==>
      && |UpdateLines(lines, id, q)| == |lines|
      && forall i :: 0 <= i < |lines| ==>
           UpdateLines(lines, id, q)[i].product == lines[i].product &&
           UpdateLines(lines, id, q)[i].quantity == (if lines[i].product.id == id then q else lines[i].quantity)
    ensures !HasLine(lines, id) ==> UpdateLines(lines, id, q) == lines
  {
    if !HasLine(lines, id) {
      if q < 1 {
        RemoveAbsent(lines, id);
      } else {
        var r := SetQuantity(lines, id, q);
        assert forall i :: 0 <= i < |lines| ==> r[i] == lines[i];
      }
    }
  }

  lemma UpdateKeepsInvariants(lines: seq<CartLine>, id: int, q: int)
    ensures UniqueLines(lines) ==> UniqueLines(UpdateLines(lines, id, q))
    ensures QuantitiesPositive(lines) ==> QuantitiesPositive(UpdateLines(lines, id, q))
  {
    if q < 1 {
      RemoveKeepsInvariants(lines, id);
    }
  }

  /** Adding a new product and then setting its quantity to 0 leaves no line for it. */
  lemma AddThenZero(lines: seq<CartLine>, p: Product)
    requires !HasLine(lines, p.id)
    ensures UpdateLines(AddLine(lines, p), p.id, 0) == lines
  {
    var once := lines + [CartLine(p, 1)];
    FilterAppend(lines, [CartLine(p, 1)], LineIdIsNot(p.id));
    RemoveAbsent(lines, p.id);
    assert Filter([CartLine(p, 1)], LineIdIsNot(p.id)) == [];
  }

  // ---------------------------------------------------------------- the store

  class CartStore {
    var lines: seq<CartLine>
    var loading: bool
    const storage: LocalStorage

    constructor (storage: LocalStorage)
      ensures this.storage == storage && lines == [] && !loading
    {
      this.storage := storage;
      lines := [];
      loading := false;
    }

    /** `cartCount`. */
    function CartCount(): int
      reads this
    {
      Count(lines)
    }

    /** `cartTotal`. */
    function CartTotal(): int
      reads this
    {
      Total(lines)
    }

    /** `loadCart`: fetch the session's cart; on failure fall back to the local mirror. */
    method Load(env: Env, ok: bool, server: seq<CartLine>) returns (call: RemoteCall)
      modifies this`lines, this`loading, storage`sessionId, storage`cart
      ensures var s := ResolveSessionId(env.user, old(storage.sessionId), env.now, env.random);
        storage.sessionId == s.stored && call == CartGet(s.id)
      ensures lines == Reload(old(lines), ok, server, old(storage.cart))
      ensures storage.cart == ReloadMirror(ok, server, old(storage.cart))
      ensures !loading
    {
      var sessionId := GetSessionId(storage, env);
      call := CartGet(sessionId);
      loading := true;
      if ok {
        lines := server;
        storage.cart := Some(lines);
      } else if storage.cart.Some? {
        lines := storage.cart.value;
      }
      loading := false;
    }

    /** `addToCart(product)`: optimistic, then a fire-and-forget POST of quantity 1. */
    method Add(product: Product, env: Env) returns (call: RemoteCall)
      modifies this`lines, storage`sessionId, storage`cart
      ensures var s := ResolveSessionId(env.user, old(storage.sessionId), env.now, env.random);
        storage.sessionId == s.stored && call == CartAdd(s.id, product.id, 1)
      ensures lines == AddLine(old(lines), product)
      ensures storage.cart == Some(lines)
    {
      var sessionId := GetSessionId(storage, env);
      lines := AddLine(lines, product);
      storage.cart := Some(lines);
      call := CartAdd(sessionId, product.id, 1);
    }

    /** `removeFromCart(productId)`. */
    method Remove(productId: int, env: Env) returns (call: RemoteCall)
      modifies this`lines, storage`sessionId, storage`cart
      ensures var s := ResolveSessionId(env.user, old(storage.sessionId), env.now, env.random);
        storage.sessionId == s.stored && call == CartRemove(s.id, productId)
      ensures lines == RemoveLines(old(lines), productId)
      ensures storage.cart == Some(lines)
    {
      var sessionId := GetSessionId(storage, env);
      lines := RemoveLines(lines, productId);
      storage.cart := Some(lines);
      call := CartRemove(sessionId, productId);
    }

    /** `updateQuantity(productId, newQuantity)`: below 1 it delegates to `removeFromCart`. */
    method UpdateQuantity(productId: int, newQuantity: int, env: Env) returns (call: RemoteCall)
      modifies this`lines, storage`sessionId, storage`cart
      ensures var s := ResolveSessionId(env.user, old(storage.sessionId), env.now, env.random);
        && storage.sessionId == s.stored
        && call == if newQuantity < 1 then CartRemove(s.id, productId) else CartUpdate(s.id, productId, newQuantity)
      ensures lines == UpdateLines(old(lines), productId, newQuantity)
      ensures storage.cart == Some(lines)
    {
      ghost var before := storage.sessionId;
      var sessionId := GetSessionId(storage, env);
      if newQuantity < 1 {
        ResolveIsStable(env.user, before, env.now, env.random, env.now, env.random);
        call := Remove(productId, env);
        return;
      }
      lines := SetQuantity(lines, productId, newQuantity);
      storage.cart := Some(lines);
      call := CartUpdate(sessionId, productId, newQuantity);
    }

    /** `clearCart`. */
    method Clear(env: Env) returns (call: RemoteCall)
      modifies this`lines, storage`sessionId, storage`cart
      ensures var s := ResolveSessionId(env.user, old(storage.sessionId), env.now, env.random);
        storage.sessionId == s.stored && call == CartClear(s.id)
      ensures lines == [] && storage.cart == Some([])
    {
      var sessionId := GetSessionId(storage, env);
      lines := [];
      storage.cart := Some(lines);
      call := CartClear(sessionId);
    }
  }
}
