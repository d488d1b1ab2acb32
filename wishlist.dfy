/**
 * The wishlist store: a list of product snapshots, unique by id, with add, remove and toggle.
 */
module Wishlist {
  import opened Wrappers
  import opened Entities
  import opened Storage
  import opened Remote

  /** The list after `addToWishlist(p)`: unchanged when the id is already there, else `p` appended. */
  function AddEntry(items: seq<Product>, p: Product): (r: seq<Product>)
    ensures items <= r && |r| <= |items| + 1
    ensures HasProduct(r, p.id)
  {
    if HasProduct(items, p.id) then items
    else
      var r := items + [p];
      assert r[|items|].id == p.id;
      r
  }

  /** The list after `toggleWishlist(p)`. */
  function ToggleEntry(items: seq<Product>, p: Product): (r: seq<Product>)
    ensures HasProduct(r, p.id) <==> !HasProduct(items, p.id)
  {
    if HasProduct(items, p.id) then WithoutProduct(items, p.id) else AddEntry(items, p)
  }

  /** Adding is a no-op for a present id and otherwise appends, keeping the existing entries. */
  lemma AddEntryShape(items: seq<Product>, p: Product)
    ensures HasProduct(items, p.id) ==> AddEntry(items, p) == items
    ensures !HasProduct(items, p.id) ==> AddEntry(items, p)[..|items|] == items && AddEntry(items, p)[|items|] == p
    ensures HasProduct(AddEntry(items, p), p.id)
    ensures AddEntry(AddEntry(items, p), p) == AddEntry(items, p)
  {
    if !HasProduct(items, p.id) {
      assert (items + [p])[|items|] == p;
    }
  }

  /** Ids stay unique under add, remove and toggle. */
  lemma OperationsKeepUniqueIds(items: seq<Product>, p: Product, id: int)
    requires UniqueIds(items)
    ensures UniqueIds(AddEntry(items, p))
    ensures UniqueIds(WithoutProduct(items, id))
    ensures UniqueIds(ToggleEntry(items, p))
  {
    if !HasProduct(items, p.id) {
      AppendKeepsUniqueIds(items, p);
    }
    WithoutProductKeepsUniqueIds(items, id);
    WithoutProductKeepsUniqueIds(items, p.id);
  }

  /** Toggling a product that is absent adds it; toggling it again restores the original list. */
  lemma ToggleTwiceRestores(items: seq<Product>, p: Product)
    requires !HasProduct(items, p.id)
    ensures ToggleEntry(items, p) == items + [p]
    ensures ToggleEntry(ToggleEntry(items, p), p) == items
  {
    var once := items + [p];
    assert once[|items|] == p;
    Seqs.FilterAppend(items, [p], IdIsNot(p.id));
    WithoutAbsentProduct(items, p.id);
    assert Seqs.Filter([p], IdIsNot(p.id)) == [];
  }

  /** Toggling a present product removes every entry with its id. */
  lemma ToggleRemovesPresent(items: seq<Product>, p: Product)
    requires HasProduct(items, p.id)
    ensures !HasProduct(ToggleEntry(items, p), p.id)
    ensures |ToggleEntry(items, p)| < |items|
  {
    var k :| 0 <= k < |items| && items[k].id == p.id;
    FilterDropsOne(items, p.id, k);
  }

  lemma {:induction false} FilterDropsOne(items: seq<Product>, id: int, k: int)
    requires 0 <= k < |items| && items[k].id == id
    ensures |WithoutProduct(items, id)| < |items|
    decreases |items|
  {
    if k > 0 {
      FilterDropsOne(items[1..], id, k - 1);
      assert WithoutProduct(items, id) == (if items[0].id != id then [items[0]] else []) + WithoutProduct(items[1..], id);
    } else {
      assert WithoutProduct(items, id) == WithoutProduct(items[1..], id);
    }
  }

  class WishlistStore {
    var items: seq<Product>
    var loading: bool
    const storage: LocalStorage

    constructor (storage: LocalStorage)
      ensures this.storage == storage && items == [] && !loading
    {
      this.storage := storage;
      items := [];
      loading := false;
    }

    /** `isInWishlist(productId)`. */
    predicate IsIn(productId: int)
      reads this
    {
      HasProduct(items, productId)
    }

    /** `wishlistCount`. */
    function WishlistCount(): nat
      reads this
    {
      |items|
    }

    /** `loadWishlist`: fetch the session's list; on failure fall back to the local mirror. */
    method Load(env: Env, ok: bool, server: seq<Product>) returns (call: RemoteCall)
      modifies this`items, this`loading, storage`sessionId, storage`wishlist
      ensures var s := ResolveSessionId(env.user, old(storage.sessionId), env.now, env.random);
        storage.sessionId == s.stored && call == WishlistGet(s.id)
      ensures items == Reload(old(items), ok, server, old(storage.wishlist))
      ensures storage.wishlist == ReloadMirror(ok, server, old(storage.wishlist))
      ensures !loading
    {
      var sessionId := GetSessionId(storage, env);
      call := WishlistGet(sessionId);
      loading := true;
      if ok {
        items := server;
        storage.wishlist := Some(items);
      } else if storage.wishlist.Some? {
        items := storage.wishlist.value;
      }
      loading := false;
    }

    /**
     * `addToWishlist(product)`: returns early, without a request, when the id is already
     * present; the session id is resolved first either way.
     */
    method Add(product: Product, env: Env) returns (call: Option<RemoteCall>)
      modifies this`items, storage`sessionId, storage`wishlist
      ensures var s := ResolveSessionId(env.user, old(storage.sessionId), env.now, env.random);
        && storage.sessionId == s.stored
        && call == if HasProduct(old(items), product.id) then None else Some(WishlistAdd(s.id, product.id))
      ensures items == AddEntry(old(items), product)
      ensures storage.wishlist == if HasProduct(old(items), product.id) then old(storage.wishlist) else Some(items)
    {
      var sessionId := GetSessionId(storage, env);
      if HasProduct(items, product.id) {
        return None;
      }
      items := items + [product];
      storage.wishlist := Some(items);
      call := Some(WishlistAdd(sessionId, product.id));
    }

    /** `removeFromWishlist(productId)`. */
    method Remove(productId: int, env: Env) returns (call: RemoteCall)
      modifies this`items, storage`sessionId, storage`wishlist
      ensures var s := ResolveSessionId(env.user, old(storage.sessionId), env.now, env.random);
        storage.sessionId == s.stored && call == WishlistRemove(s.id, productId)
      ensures items == WithoutProduct(old(items), productId)
      ensures storage.wishlist == Some(items)
    {
      var sessionId := GetSessionId(storage, env);
      items := WithoutProduct(items, productId);
      storage.wishlist := Some(items);
      call := WishlistRemove(sessionId, productId);
    }

    /** `toggleWishlist(product)`. */
    method Toggle(product: Product, env: Env) returns (call: Option<RemoteCall>)
      modifies this`items, storage`sessionId, storage`wishlist
      ensures var s := ResolveSessionId(env.user, old(storage.sessionId), env.now, env.random);
        && storage.sessionId == s.stored
        && call == Some(if HasProduct(old(items), product.id) then WishlistRemove(s.id, product.id)
                        else WishlistAdd(s.id, product.id))
      ensures items == ToggleEntry(old(items), product)
      ensures storage.wishlist == Some(items)
    {
      if IsIn(product.id) {
        var c := Remove(product.id, env);
        call := Some(c);
      } else {
        call := Add(product, env);
      }
    }
  }
}
