/**
 * The browser's local storage as the stores use it, and the session identity resolver
 * (`getSessionId`, repeated verbatim in the cart, wishlist and order stores).
 */
module Storage {
  import opened Wrappers
  import opened Text
  import opened Entities

  /** What `JSON.parse` makes of the stored user record. */
  datatype StoredUser = Parsed(user: User) | Corrupt

  /**
   * One field per storage key; `None` is a missing key. Mirrors of the collections are
   * modelled as already-parsed values.
   */
  class LocalStorage {
    var sessionId: Option<string>       // amazon_session_id
    var user: Option<StoredUser>        // amazon_user
    var cart: Option<seq<CartLine>>     // amazon_cart
    var wishlist: Option<seq<Product>>  // amazon_wishlist
    var compare: Option<seq<Product>>   // amazon_compare
    var orders: Option<seq<Order>>      // amazon_orders

    /** Storage as a previous visit left it. */
    constructor (sessionId: Option<string>, user: Option<StoredUser>, cart: Option<seq<CartLine>>,
                 wishlist: Option<seq<Product>>, compare: Option<seq<Product>>, orders: Option<seq<Order>>)
      ensures this.sessionId == sessionId && this.user == user && this.cart == cart
      ensures this.wishlist == wishlist && this.compare == compare && this.orders == orders
    {
      this.sessionId := sessionId;
      this.user := user;
      this.cart := cart;
      this.wishlist := wishlist;
      this.compare := compare;
      this.orders := orders;
    }
  }

  /**
   * What a store reads from outside itself when an operation runs: the signed-in user
   * (a snapshot of the auth store), the clock in milliseconds, and the random suffix
   * `Math.random().toString(36).substr(2, 9)` would produce.
   */
  datatype Env = Env(user: Option<User>, now: nat, random: string)

  /** `user?.id` is truthy. */
  predicate SignedIn(user: Option<User>) {
    user.Some? && user.value.id != ""
  }

  /** `guest_${Date.now()}_${random}`. */
  function GuestId(now: nat, random: string): (r: string)
    ensures StartsWith(r, "guest_")
    ensures |r| > |"guest_"|
  {
    "guest_" + NatToString(now) + "_" + random
  }

  /** The id a call resolves to and the guest id left in storage afterwards. */
  datatype Resolution = Resolution(id: string, stored: Option<string>)

  function ResolveSessionId(user: Option<User>, stored: Option<string>, now: nat, random: string): (r: Resolution)
    ensures r.id != ""
    ensures r.stored == stored || (!Truthy(stored) && r.stored == Some(r.id))
  {
    if SignedIn(user) then Resolution(user.value.id, stored)
    else if Truthy(stored) then Resolution(stored.value, stored)
    else
      var id := GuestId(now, random);
      Resolution(id, Some(id))
  }

  /** A signed-in user's id is the session id, and the stored guest id is left alone. */
  lemma ResolveSignedIn(user: Option<User>, stored: Option<string>, now: nat, random: string)
    requires SignedIn(user)
    ensures ResolveSessionId(user, stored, now, random) == Resolution(user.value.id, stored)
  {
  }

  /** An anonymous shopper gets the stored guest id when there is one, else a fresh `guest_` id that is stored. */
  lemma ResolveGuest(user: Option<User>, stored: Option<string>, now: nat, random: string)
    requires !SignedIn(user)
    ensures var r := ResolveSessionId(user, stored, now, random);
      && (Truthy(stored) ==> r == Resolution(stored.value, stored))
      && (!Truthy(stored) ==> r.id == GuestId(now, random) && r.stored == Some(r.id))
  {
  }

  /** Resolving again, at any later time and with any random draw, gives the same id and storage. */
  lemma ResolveIsStable(user: Option<User>, stored: Option<string>, now: nat, random: string, now': nat, random': string)
    ensures var r := ResolveSessionId(user, stored, now, random);
      ResolveSessionId(user, r.stored, now', random') == r
  {
  }

  /**
   * The collection a store holds after a load: the server's list when the request
   * succeeds; otherwise the local mirror when one is stored; otherwise what it held before.
   */
  function Reload<T>(current: seq<T>, ok: bool, server: seq<T>, mirror: Option<seq<T>>): (r: seq<T>)
    ensures ok ==> r == server
    ensures !ok && mirror.Some? ==> r == mirror.value
    ensures !ok && mirror.None? ==> r == current
  {
    if ok then server else mirror.GetOr(current)
  }

  /** The mirror a load leaves behind: rewritten with the server's list on success, untouched otherwise. */
  function ReloadMirror<T>(ok: bool, server: seq<T>, mirror: Option<seq<T>>): (m: Option<seq<T>>)
    ensures ok ==> m == Some(server)
    ensures !ok ==> m == mirror
  {
    if ok then Some(server) else mirror
  }

  /**
   * The first load after mount, as written: the backup effect runs in the same commit as the
   * load effect and stores the initial empty list before a failed request reads the mirror
   * back, so the fallback sees `[]` whatever an earlier visit saved.
   */
  function MountLoadAsWritten<T>(ok: bool, server: seq<T>, saved: Option<seq<T>>): seq<T> {
    var mirrorAtFallback := ReloadMirror(true, [], saved);
    Reload([], ok, server, mirrorAtFallback)
  }

  /** As written, a failed first load loses the saved list: with `saved == Some([x])` the store shows `[]`. */
  lemma MountFallbackLosesSaved<T>(server: seq<T>, x: T)
    ensures MountLoadAsWritten(false, server, Some([x])) == []
    ensures MountLoadAsWritten(false, server, Some([x])) != [x]
  {
  }

  /** The first load after mount reading the mirror as the previous visit left it. */
  function MountLoad<T>(ok: bool, server: seq<T>, saved: Option<seq<T>>): (r: seq<T>)
    ensures ok ==> r == server
    ensures !ok && saved.Some? ==> r == saved.value
    ensures !ok && saved.None? ==> r == []
  {
    Reload([], ok, server, saved)
  }

  /** `getSessionId`: reads and, for a new guest, writes `amazon_session_id`. */
  method GetSessionId(storage: LocalStorage, env: Env) returns (id: string)
    modifies storage`sessionId
    ensures Resolution(id, storage.sessionId) == ResolveSessionId(env.user, old(storage.sessionId), env.now, env.random)
  {
    if SignedIn(env.user) {
      return env.user.value.id;
    }
    var sessionId := storage.sessionId;
    if !Truthy(sessionId) {
      var generated := GuestId(env.now, env.random);
      sessionId := Some(generated);
      storage.sessionId := sessionId;
    }
    id := sessionId.value;
  }
}
