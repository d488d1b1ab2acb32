/**
 * The requests the client stores send to the backend's `/api` routes. A store returns the
 * request it fires; whether it later succeeds never changes the store's local state.
 */
module Remote {
  import opened Entities

  datatype RemoteCall =
    | CartGet(sessionId: string)                                  // GET /cart/{sessionId}
    | CartAdd(sessionId: string, productId: int, quantity: int)   // POST /cart
    | CartRemove(sessionId: string, productId: int)               // DELETE /cart/{sessionId}/{productId}
    | CartUpdate(sessionId: string, productId: int, quantity: int) // PUT /cart/{sessionId}/{productId}?quantity=N
    | CartClear(sessionId: string)                                // DELETE /cart/{sessionId}
    | WishlistGet(sessionId: string)                              // GET /wishlist/{sessionId}
    | WishlistAdd(sessionId: string, productId: int)              // POST /wishlist
    | WishlistRemove(sessionId: string, productId: int)           // DELETE /wishlist/{sessionId}/{productId}
    | OrdersGet(sessionId: string)                                // GET /orders/{sessionId}
    | OrderCreate(order: Order)                                   // POST /orders
}
