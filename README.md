# Storefront core, modelled in Dafny

This project models the logic behind a shopping storefront: a React client with five
context stores and a FastAPI backend over a document database.

- The **client stores** are classes whose fields are the in-memory state. Each store also
  writes a mirror of its list to the browser's local storage.
  - The **cart** keeps one line per product, each with a quantity of at least 1. It derives a
    count and a total.
  - The **wishlist** is a list of products unique by id, with add, remove and toggle.
  - The **compare list** holds at most four products. Adding reports success or a message.
  - The **order list** is kept newest first. A new order's total is the sum of price × quantity.
  - The **auth store** is anonymous or signed in. It is restored from local storage on mount.
  - The cart, wishlist and order stores share one session-id resolver. It returns the
    signed-in user's id, else the stored guest id, else a new guest id that it stores.
- The **backend** handles the catalog, search with category normalisation, and product lookup.
  It also keeps the cart, wishlist and review collections, each a sequence of records in
  insertion order.
- **Page and component rules** are modelled too:
  - the search page's filter-then-sort pipeline and its filter handlers;
  - the registration form's ordered checks;
  - the two-step sign-in form;
  - the hero carousel's slide index;
  - the deal countdown's split of milliseconds into hours, minutes and seconds, and its
    zero-padded display.

Conventions:
- Prices are integers in hundredths of a currency unit. Ratings are integers in tenths of a star.
- Strings are ASCII: lower-casing changes only `A`-`Z`.
- Anything a store reads from outside is an explicit parameter:
  - `Storage.Env` carries the auth snapshot, the clock in milliseconds, and the random guest-id
    suffix.
  - A backend request's outcome is a boolean plus the server's list.
- Each store operation returns the request it sends, as a `Remote.RemoteCall` value. A failing
  request never changes the store afterwards.

Modules: `Wrappers`, `Text`, `Seqs`, `Arith` (shared helpers); `Entities`, `Storage`, `Remote`;
`Cart`, `Wishlist`, `Compare`, `Orders`, `Auth` (the stores); `Server` (the backend);
`Search`, `Register`, `SignIn`, `Carousel`, `Deal` (pages and components).

## Model

| member | source | states |
|---|---|---|
| Text.ToLower | backend/server.py:533 | `str.lower()`: same length, each character lower-cased |
| Text.Contains | backend/server.py:546 | Python's substring test: true exactly when the needle occurs at some index of the haystack |
| Text.BeforeFirst | frontend/src/context/AuthContext.jsx:35 | `split('@')[0]`: the longest prefix without the separator; it is the whole string exactly when the separator is absent, and otherwise the separator follows it |
| Text.NatToString | frontend/src/components/DealCard.jsx:135 | `String(n)`: decimal digits that denote n, with no leading zero |
| Text.PadStart | frontend/src/components/DealCard.jsx:135 | `padStart(width, fill)`: length max(width, \|s\|), s as a suffix, fill characters before it |
| Seqs.Filter | frontend/src/context/CartContext.jsx:95 | `filter`: no longer than the input; keeps exactly the elements that pass, and only elements of the input |
| Seqs.FilterIsSubsequence | frontend/src/context/WishlistContext.jsx:83 | a filter's result is an order-preserving sub-list of its input |
| Seqs.FilterFilter | frontend/src/pages/SearchPage.jsx:59-77 | two successive filters equal one filter by the conjunction |
| Seqs.SortByKey | frontend/src/pages/SearchPage.jsx:80-95 | `sort` by a numeric comparator: a permutation of the input, ordered by the key |
| Entities.WithoutProduct | frontend/src/context/CompareContext.jsx:40 | `filter(item => item.id !== id)`: no entry with that id remains, every other entry stays, in order, and no entry is invented |
| Entities.WithoutProductKeepsUniqueIds | frontend/src/context/WishlistContext.jsx:83 | removing by id keeps ids unique |
| Entities.WithoutAbsentProduct | frontend/src/context/WishlistContext.jsx:83 | removing an id that is not present changes nothing |
| Entities.AppendKeepsUniqueIds | frontend/src/context/WishlistContext.jsx:62-67 | appending a product whose id is absent keeps ids unique |
| Storage.GuestId | frontend/src/context/CartContext.jsx:28 | a generated guest id starts with `guest_` and has more after it |
| Storage.ResolveSessionId | frontend/src/context/CartContext.jsx:24-32 | the session id is never empty; storage changes only when no guest id was stored, and then holds the id returned |
| Storage.ResolveSignedIn | frontend/src/context/CartContext.jsx:25 | a signed-in user's id is the session id, and the stored guest id is left alone |
| Storage.ResolveGuest | frontend/src/context/CartContext.jsx:26-31 | an anonymous shopper gets the stored guest id, or a new `guest_` id that is then stored |
| Storage.ResolveIsStable | frontend/src/context/CartContext.jsx:24-32 | resolving again, at any later time and with any random draw, returns the same id and leaves storage the same |
| Storage.Reload | frontend/src/context/CartContext.jsx:35-51 | after a load the list is the server's on success, else the stored mirror if there is one, else what it was |
| Storage.ReloadMirror | frontend/src/context/CartContext.jsx:58-61 | a successful load rewrites the mirror with the server's list; a failed one leaves it |
| Storage.MountFallbackLosesSaved | frontend/src/context/CartContext.jsx:35-61 | as written, a failed first load after mount shows `[]` even when a previous visit saved a non-empty list |
| Storage.MountLoad | frontend/src/context/CartContext.jsx:35-51 | the first load shows the server's list, else the saved mirror, else the empty list |
| Storage.GetSessionId | frontend/src/context/CartContext.jsx:24-32 | the returned id and the new stored guest id are those of `ResolveSessionId` |
| Cart.Count | frontend/src/context/CartContext.jsx:141 | `cartCount`: the sum of the lines' quantities; additivity over concatenation is `SumsAppend` |
| Cart.Total | frontend/src/context/CartContext.jsx:142 | `cartTotal`: the sum of price × quantity; additivity over concatenation is `SumsAppend` |
| Cart.AddLine | frontend/src/context/CartContext.jsx:67-76 | after adding, the cart has a line for the product, and it grew by one line exactly when there was none |
| Cart.UpdateLines | frontend/src/context/CartContext.jsx:108-117 | below 1 the product has no line left; otherwise the length is kept and the product has a line exactly when it had one |
| Cart.Bump | frontend/src/context/CartContext.jsx:70-74 | the matching lines' quantity goes up by 1, and every other line is unchanged |
| Cart.SetQuantity | frontend/src/context/CartContext.jsx:113-117 | the matching lines get quantity q, and every other line is unchanged |
| Cart.RemoveLines | frontend/src/context/CartContext.jsx:95 | no line for the id remains; every other line stays, in order; no line is invented |
| Cart.SumsAppend | frontend/src/context/CartContext.jsx:141-142 | count and total are additive over concatenation |
| Cart.AddLineShape | frontend/src/context/CartContext.jsx:67-76 | a product already present gets exactly +1 at its line, and every other line and the order are unchanged; a new product is appended with quantity 1 |
| Cart.BumpSums | frontend/src/context/CartContext.jsx:70-74 | with one line per product, bumping raises the count by 1 and the total by that line's price |
| Cart.AddLineSums | frontend/src/context/CartContext.jsx:67-76 | adding raises `cartCount` by 1 and `cartTotal` by the price of the line's product |
| Cart.AddToEmptyCart | frontend/src/context/CartContext.jsx:76 | adding P to an empty cart gives one line; the count is 1 and the total is P's price |
| Cart.AddTwice | frontend/src/context/CartContext.jsx:67-76 | adding a new product twice gives a single line with quantity 2 |
| Cart.AddKeepsInvariants | frontend/src/context/CartContext.jsx:67-76 | one line per product and quantities of at least 1 survive add |
| Cart.RemoveKeepsInvariants | frontend/src/context/CartContext.jsx:95 | both invariants survive remove |
| Cart.FilterKeepsUniqueLines | frontend/src/context/CartContext.jsx:95 | any filter keeps one line per product |
| Cart.RemoveAbsent | frontend/src/context/CartContext.jsx:95 | removing an absent product changes nothing |
| Cart.UpdateLinesShape | frontend/src/context/CartContext.jsx:108-117 | below 1, update is exactly remove; otherwise only the matching line's quantity becomes q; an absent id leaves the cart unchanged |
| Cart.UpdateKeepsInvariants | frontend/src/context/CartContext.jsx:108-117 | both invariants survive update |
| Cart.AddThenZero | frontend/src/context/CartContext.jsx:67-117 | adding a new product, then setting its quantity to 0, restores the cart |
| Cart.CartStore.constructor | frontend/src/context/CartContext.jsx:19-20 | the cart starts empty and not loading |
| Cart.CartStore.CartCount | frontend/src/context/CartContext.jsx:141 | `cartCount` of the current lines; its change under add is `AddLineSums` |
| Cart.CartStore.CartTotal | frontend/src/context/CartContext.jsx:142 | `cartTotal` of the current lines; its change under add is `AddLineSums` |
| Cart.CartStore.Load | frontend/src/context/CartContext.jsx:35-51 | resolves the session, sends the GET, ends with the list and mirror given by `Reload`/`ReloadMirror`, loading false |
| Cart.CartStore.Add | frontend/src/context/CartContext.jsx:63-89 | the cart becomes `AddLine` of the old cart, the mirror follows, and the POST carries quantity 1 for the resolved session |
| Cart.CartStore.Remove | frontend/src/context/CartContext.jsx:91-103 | the cart becomes `RemoveLines`, the mirror follows, and the DELETE names the session and product |
| Cart.CartStore.UpdateQuantity | frontend/src/context/CartContext.jsx:105-125 | below 1 it sends a remove and the cart is `RemoveLines`; otherwise a PUT, and the line's quantity is set |
| Cart.CartStore.Clear | frontend/src/context/CartContext.jsx:127-139 | the cart and its mirror become empty, and the session's DELETE is sent |
| Wishlist.AddEntry | frontend/src/context/WishlistContext.jsx:58-67 | after adding, the product is in the list, the old list is a prefix and at most one entry was added |
| Wishlist.ToggleEntry | frontend/src/context/WishlistContext.jsx:96-102 | after a toggle the product is in the list exactly when it was not before |
| Wishlist.AddEntryShape | frontend/src/context/WishlistContext.jsx:58-67 | adding a present id changes nothing; otherwise the product is appended after the existing entries; afterwards it is present, and a second add is a no-op |
| Wishlist.OperationsKeepUniqueIds | frontend/src/context/WishlistContext.jsx:58-102 | ids stay unique under add, remove and toggle |
| Wishlist.ToggleTwiceRestores | frontend/src/context/WishlistContext.jsx:96-102 | toggling an absent product appends it, and toggling again restores the original list |
| Wishlist.ToggleRemovesPresent | frontend/src/context/WishlistContext.jsx:96-98 | toggling a present product removes it, and the list gets shorter |
| Wishlist.FilterDropsOne | frontend/src/context/WishlistContext.jsx:83 | removing an id that is present shortens the list |
| Wishlist.WishlistStore.constructor | frontend/src/context/WishlistContext.jsx:19-20 | the wishlist starts empty and not loading |
| Wishlist.WishlistStore.IsIn | frontend/src/context/WishlistContext.jsx:92-94 | `isInWishlist`: some entry has the id |
| Wishlist.WishlistStore.WishlistCount | frontend/src/context/WishlistContext.jsx:111 | `wishlistCount`: the number of entries |
| Wishlist.WishlistStore.Load | frontend/src/context/WishlistContext.jsx:33-48 | the list and mirror after a load are those of `Reload`/`ReloadMirror`, and loading ends false |
| Wishlist.WishlistStore.Add | frontend/src/context/WishlistContext.jsx:58-77 | the session is resolved first; a present id returns early with no request and no change; otherwise the product is appended and the POST is sent |
| Wishlist.WishlistStore.Remove | frontend/src/context/WishlistContext.jsx:79-90 | the id's entries are removed, the mirror follows, and the DELETE is sent |
| Wishlist.WishlistStore.Toggle | frontend/src/context/WishlistContext.jsx:96-102 | a present product is removed with a DELETE, an absent one added with a POST |
| Compare.CapacityMessage | frontend/src/context/CompareContext.jsx:15-31 | the capacity message is "Maximum 4 items allowed" |
| Compare.AddOutcome | frontend/src/context/CompareContext.jsx:28-37 | `addToCompare`'s outcome and list: capacity first, then duplicates, else append; specified by `AddOutcomeCases` |
| Compare.ToggleOutcome | frontend/src/context/CompareContext.jsx:51-58 | `toggleCompare`'s outcome and list; specified by `ToggleOutcomeCases` |
| Compare.AddOutcomeCases | frontend/src/context/CompareContext.jsx:28-37 | a full list is rejected with the capacity message even for a duplicate; then duplicates are rejected with their message; a rejection leaves the list; success happens exactly when there is room and no duplicate, and then it appends |
| Compare.OperationsKeepValid | frontend/src/context/CompareContext.jsx:15-58 | at most 4 entries and unique ids survive add, remove, clear and toggle |
| Compare.FifthAddRejected | frontend/src/context/CompareContext.jsx:29-31 | with four entries any add is rejected and the list stays at four |
| Compare.ToggleOutcomeCases | frontend/src/context/CompareContext.jsx:51-58 | toggling a present product removes it and reports `removed`; otherwise it is exactly `addToCompare` |
| Compare.CompareStore.constructor | frontend/src/context/CompareContext.jsx:17-26 | on mount the list is the stored one if any, else empty; the backup effect leaves the mirror holding that list ("[]" when nothing was stored) |
| Compare.CompareStore.IsIn | frontend/src/context/CompareContext.jsx:47-49 | `isInCompare`: some entry has the id |
| Compare.CompareStore.CompareCount | frontend/src/context/CompareContext.jsx:67 | `compareCount`: the number of entries |
| Compare.CompareStore.Add | frontend/src/context/CompareContext.jsx:28-37 | the outcome and new list are `AddOutcome`'s, and the mirror changes only on success |
| Compare.CompareStore.Remove | frontend/src/context/CompareContext.jsx:39-41 | the id is filtered out and the mirror follows |
| Compare.CompareStore.Clear | frontend/src/context/CompareContext.jsx:43-45 | the list and its mirror become empty |
| Compare.CompareStore.Toggle | frontend/src/context/CompareContext.jsx:51-58 | the outcome and new list are `ToggleOutcome`'s; the mirror holds the new list after a removal or an accepted add, and is unchanged after a rejection |
| Orders.DefaultAddress | frontend/src/context/OrderContext.jsx:68-75 | the default address is named after the user, or "Guest" when there is no name, at the fixed street, city, state, zip and country |
| Orders.NewOrder | frontend/src/context/OrderContext.jsx:58-79 | the order `createOrder` builds; specified by `NewOrderShape` |
| Orders.NewOrderShape | frontend/src/context/OrderContext.jsx:58-79 | the order has exactly the given items, their price × quantity total, status "Processing" and the session id; its id is `order_` followed by the digits of the clock reading; it is created at the clock reading and due 259,200,000 ms later; the defaults apply only when nothing is given |
| Orders.TotalExample | frontend/src/context/OrderContext.jsx:60 | lines (100, 2) and (50, 1) total 250 |
| Orders.OrderStore.constructor | frontend/src/context/OrderContext.jsx:19-20 | the order list starts empty and not loading |
| Orders.OrderStore.OrderCount | frontend/src/context/OrderContext.jsx:98 | `orderCount`: the number of orders |
| Orders.OrderStore.Load | frontend/src/context/OrderContext.jsx:33-48 | the orders and mirror after a load are those of `Reload`/`ReloadMirror`, and loading ends false |
| Orders.OrderStore.Create | frontend/src/context/OrderContext.jsx:58-91 | the returned order is `NewOrder` for the resolved session; it is prepended, earlier orders keep their order, the count grows by one, and the POST carries it |
| Auth.DisplayName | frontend/src/context/AuthContext.jsx:35 | the given name if non-empty; otherwise the email's prefix before the first "@", or the whole email when it has none |
| Auth.MockUser | frontend/src/context/AuthContext.jsx:32-37 | the user's id starts with `user_`, and it carries the email, name and clock reading |
| Text.BeforeFirstAt | frontend/src/context/AuthContext.jsx:35 | the prefix before the separator ends exactly at its first occurrence |
| Auth.DisplayNameExample | frontend/src/context/AuthContext.jsx:35 | "ann@example.com" with no name is shown as "ann" |
| Auth.AuthStore.constructor | frontend/src/context/AuthContext.jsx:17-28 | on mount a parsed record becomes the user; a corrupt one is removed and the user stays null; loading ends false |
| Auth.AuthStore.IsAuthenticated | frontend/src/context/AuthContext.jsx:67 | `!!user`: true exactly when a user is signed in |
| Auth.AuthStore.SignIn | frontend/src/context/AuthContext.jsx:30-41 | always succeeds, whatever the password; the user and the stored record are the mock user with the derived display name |
| Auth.AuthStore.SignUp | frontend/src/context/AuthContext.jsx:43-54 | always succeeds, with the name taken verbatim |
| Auth.AuthStore.SignOut | frontend/src/context/AuthContext.jsx:56-59 | the user is null, the stored record is removed, and the store is not authenticated |
| Server.GetProducts | backend/server.py:529-534 | with no category or "All", the whole catalog; otherwise an order-preserving sub-list holding exactly the products whose category equals the argument case-insensitively |
| Server.NormaliseCategoryAsWritten | backend/server.py:545 | `category.lower().replace(" ", "-").replace("&", "")`; its results for "A & B" are stated by `AsWrittenJoin` |
| Server.NormaliseCategory | backend/server.py:545 | the corrected normalisation: no space, no "&" and no upper-case letter in the result |
| Server.NormalisationAgreesWithoutAmpersand | backend/server.py:545 | for a category without "&" and without two spaces in a row, the corrected and the as-written normalisation agree |
| Server.AsWrittenJoin | backend/server.py:545 | as written, "A & B" for any two words without spaces or "&" normalises to the lower-cased words joined by "--" |
| Server.CorrectedJoin | backend/server.py:545 | corrected, "A & B" normalises to the lower-cased words joined by a single "-" |
| Server.AmpersandCategoryMismatch | backend/server.py:545-546 | for every "A & B" category, the as-written argument is not a substring of the corrected slug, so the category filter cannot match the product it names |
| Server.HomeAndKitchenCounterexample | backend/server.py:545-546 | as written, "Home & Kitchen" becomes "home--kitchen", which "home-kitchen" does not contain; corrected, it becomes "home-kitchen" |
| Server.ByCategory | backend/server.py:544-546 | for a given normalisation of the argument, the category stage keeps, in order, exactly the products whose lower-cased category contains the normalised argument |
| Server.SearchProductsSpec | backend/server.py:536-556 | the search as written (normalisation of line 545) returns an order-preserving sub-list of the catalog holding exactly the products that pass the category filter and the query filter (query in the lower-cased title or category) |
| Server.SearchWithSpec | backend/server.py:536-556 | the same sub-list and exactly-these-products property holds whatever normalisation the category stage uses |
| Server.SearchProducts | backend/server.py:536-556 | `search_products` as written: the category stage with the normalisation of line 545, then the query stage; specified by `SearchProductsSpec` |
| Server.SearchProductsCorrectedSpec | backend/server.py:536-556 | the search with the corrected normalisation keeps the same shape: an order-preserving sub-list of exactly the passing products |
| Server.AmpersandSearch | backend/server.py:544-546 | for a category "A & B" and no query, a product whose category is the slug "a-b" is never returned as written and always returned corrected |
| Server.AmpersandSearchSingle | backend/server.py:544-546 | over a one-product catalog whose category is the slug "a-b", the search by "A & B" is empty as written and that product corrected |
| Server.HomeKitchenSearch | backend/server.py:536-556 | searching "Home & Kitchen" over a catalog holding one "home-kitchen" product returns nothing as written; the corrected search returns that product |
| Server.FindProduct | backend/server.py:561 | `next(...)`: the first product with the id; none exactly when no product has it |
| Server.GetProduct | backend/server.py:558-564 | a catalog product with that id, or 404 "Product not found" exactly when there is none |
| Server.FindRecord | backend/server.py:590-593 | `find_one`: the first record of the (session, product) pair, or none when no record matches |
| Server.AddToCartRecords | backend/server.py:587-610 | `add_to_cart`'s collection: the pair's first record has its quantity raised by the request, otherwise a new record is appended at the end; specified by `AddToCartFrame`, `AddToCartQuantities` and `AddToCartKeepsUniquePairs` |
| Server.AddToCartQuantities | backend/server.py:587-610 | `add_to_cart` raises the quantity held for its pair by the requested quantity and leaves every other pair's quantity unchanged |
| Server.AddToCartKeepsUniquePairs | backend/server.py:587-610 | at most one record per pair is kept; the collection grows only when the pair was new |
| Server.AddToCartFrame | backend/server.py:587-610 | only the pair's first record changes, its quantity raised by the request, and every other record is unchanged; with no record of the pair the collection is the old one followed by exactly the new record (fresh id, the request's product, quantity and session, the clock reading) |
| Server.UpdateCartRecords | backend/server.py:644-657 | `update_cart_quantity`'s collection: delete at 0 or below, else set the first match's quantity, no upsert; specified by `UpdateCartFrame` and `UpdateCartNeverCreates` |
| Server.UpdateCartNeverCreates | backend/server.py:644-657 | update never creates a record and keeps pairs unique; at 0 or below the pair's record is gone; otherwise the pair holds exactly the new quantity if it existed |
| Server.UpdateCartFrame | backend/server.py:644-657 | at 0 or below the update is exactly `remove_from_cart`'s deletion; otherwise only the pair's first record changes, to the new quantity, and every other record is unchanged; with no record of the pair the collection is unchanged |
| Server.DeleteSession | backend/server.py:638-642 | `delete_many({session_id})`: every record of the session is removed; specified by `ClearCartSpec` |
| Server.ClearCartSpec | backend/server.py:638-642 | clear removes every record of the session and no other, keeping the order |
| Server.DeleteOne | backend/server.py:629-636 | `delete_one`: the first record of the pair is removed, if any; specified by `RemoveFromCartSpec` |
| Server.RemoveFromCartSpec | backend/server.py:629-636 | remove deletes at most one record, exactly one when the pair exists, and none otherwise; the deleted one is the pair's first record, and the records before and after it keep their order |
| Server.SessionRecords | backend/server.py:615 | `find({session_id}).to_list(100)`: the session's records in collection order, the first min(100, n) of them, each belonging to the session |
| Server.JoinProducts | backend/server.py:617-625 | each record joined with its catalog product, carrying the record's quantity; records whose product is missing are dropped, and none is dropped when all products exist |
| Server.JoinProductsInOrder | backend/server.py:617-625 | the join keeps record order: line i comes from the i-th record whose product is in the catalog, with the first catalog product of that id and the record's quantity |
| Server.GetCart | backend/server.py:612-627 | `get_cart`: the session's first 100 records joined with the catalog; specified by `GetCartSpec` |
| Server.GetCartSpec | backend/server.py:612-627 | at most 100 lines; the i-th line comes from the i-th taken session record whose product is in the catalog, carrying the first catalog product with that id and the record's quantity, so no such record is skipped and record order is kept |
| Server.AddToWishlistRecords | backend/server.py:810-827 | `add_to_wishlist`'s collection: a record is inserted only when the pair is absent; specified by `AddToWishlistIdempotent` |
| Server.AddToWishlistIdempotent | backend/server.py:810-827 | an add keeps every earlier record and appends exactly the new record when the pair is absent, and nothing otherwise; after it the pair is present, and adding it again with any new id and time changes nothing |
| Server.FindReview | backend/server.py:777-778 | the first review with the id, or none |
| Server.MarkHelpful | backend/server.py:771-786 | the first review with the id has `helpful_count` moved by +1 or -1; specified by `MarkHelpfulSpec` |
| Server.MarkHelpfulSpec | backend/server.py:771-786 | the first review with the id has `helpful_count` moved by +1 (helpful) or -1 and every other review is unchanged; no other field changes; an unknown id changes nothing |
| Server.Database.AddToCart | backend/server.py:587-610 | the collection becomes `AddToCartRecords`, with the reply "Added to cart" |
| Server.Database.GetCartLines | backend/server.py:612-627 | the reply is `GetCart` of the collection, and nothing changes |
| Server.Database.RemoveFromCart | backend/server.py:629-636 | the collection becomes `DeleteOne`, with the reply "Removed from cart" |
| Server.Database.ClearCart | backend/server.py:638-642 | the collection becomes `DeleteSession`, with the reply "Cart cleared" |
| Server.Database.UpdateCartQuantity | backend/server.py:644-657 | the collection becomes `UpdateCartRecords`, with the reply "Cart updated" |
| Server.Database.AddToWishlist | backend/server.py:810-827 | the collection becomes `AddToWishlistRecords`, with the reply "Added to wishlist" |
| Server.Database.MarkReviewHelpful | backend/server.py:771-786 | the reviews become `MarkHelpful`, with the reply "Updated" either way |
| Search.ApplyFilters | frontend/src/pages/SearchPage.jsx:59-77 | the four filter stages in order; specified by `ApplyFiltersSpec` |
| Search.Arrange | frontend/src/pages/SearchPage.jsx:79-95 | the sort chosen by the mode, or the fetched order for "featured"; specified by `ArrangeSpec` |
| Search.Visible | frontend/src/pages/SearchPage.jsx:58-95 | filter, then arrange: what the page lists |
| Search.ApplyFiltersAppend | frontend/src/pages/SearchPage.jsx:59-77 | the filter chain distributes over concatenation |
| Search.ApplyFiltersStep | frontend/src/pages/SearchPage.jsx:59-77 | the chain keeps a product exactly when it passes every active filter, one product at a time |
| Search.ApplyFiltersIsOneFilter | frontend/src/pages/SearchPage.jsx:59-77 | the chain of min-price, max-price, rating and Prime filters equals one filter by the conjunction of the active conditions |
| Search.ApplyFiltersSpec | frontend/src/pages/SearchPage.jsx:59-77 | before sorting, the result is an order-preserving sub-list of the fetched products, holding exactly those that pass every active filter |
| Search.NoFiltersKeepAll | frontend/src/pages/SearchPage.jsx:59-77 | with no active filter every product is shown, in the fetched order |
| Search.ArrangeSpec | frontend/src/pages/SearchPage.jsx:79-95 | each sort is a permutation; "price-low" is ascending by price; "price-high", "rating" and "reviews" are descending by their key; "featured" keeps the order |
| Search.RatingAfterClick | frontend/src/pages/SearchPage.jsx:188 | clicking the selected rating resets it to 0, and any other click selects that rating |
| Search.RatingClickTwice | frontend/src/pages/SearchPage.jsx:188 | two clicks on the same rating from none return to none |
| Search.SearchPageState.constructor | frontend/src/pages/SearchPage.jsx:22-26 | the page starts with no filter active and "featured" order |
| Search.SearchPageState.VisibleProducts | frontend/src/pages/SearchPage.jsx:58-95 | the step-by-step pipeline yields a permutation of the filtered list, ordered as the sort mode promises |
| Search.SearchPageState.ClickRating | frontend/src/pages/SearchPage.jsx:188 | the selected rating becomes `RatingAfterClick` of the old one |
| Search.SearchPageState.SetPriceRange | frontend/src/pages/SearchPage.jsx:205-248 | a preset or an input sets the price range |
| Search.SearchPageState.SetPrimeOnly | frontend/src/pages/SearchPage.jsx:154 | the checkbox sets Prime-only |
| Search.SearchPageState.SetSortBy | frontend/src/pages/SearchPage.jsx:319 | the select sets the sort mode |
| Search.SearchPageState.ClearFilters | frontend/src/pages/SearchPage.jsx:286-290 | clears the price range, the rating and Prime-only; no filter stays active and every product passes; the sort mode stays |
| Register.AnyChar | frontend/src/pages/RegisterPage.jsx:19-20 | a one-character-class regular-expression test: true exactly when some character is in the class |
| Register.PasswordRequirements | frontend/src/pages/RegisterPage.jsx:17-21 | three indicators: at least 6 characters, contains a digit, contains a letter |
| Register.FirstError | frontend/src/pages/RegisterPage.jsx:28-51 | `handleSubmit`'s checks in order, the first failure's message or none; specified by `FirstErrorCases` |
| Register.FirstErrorCases | frontend/src/pages/RegisterPage.jsx:28-51 | each message is reported exactly when its check fails and every earlier check passes; there is no error exactly when the form is acceptable |
| Register.DigitAndLetterNotEnforced | frontend/src/pages/RegisterPage.jsx:17-45 | "abcdef" (no digit) and "123456" (no letter) are both accepted on submit |
| Register.RegisterForm.constructor | frontend/src/pages/RegisterPage.jsx:7-13 | the form starts with four empty fields, no error and not loading |
| Register.RegisterForm.Edit | frontend/src/pages/RegisterPage.jsx:105-186 | the inputs set the four fields |
| Register.RegisterForm.Submit | frontend/src/pages/RegisterPage.jsx:23-63 | the first failing check sets its message, `signUp` is not called and auth and its stored record are unchanged; when all pass, the user and the stored record are the signed-up mock user and the page goes to "/"; loading is false on every exit |
| SignIn.OriginPath | frontend/src/pages/SignInPage.jsx:16 | the origin path if given and non-empty, else "/" |
| SignIn.SignInForm.constructor | frontend/src/pages/SignInPage.jsx:7-11 | the form starts on step 1 with empty fields |
| SignIn.SignInForm.SetEmail | frontend/src/pages/SignInPage.jsx:91 | the email input sets the email |
| SignIn.SignInForm.SetPassword | frontend/src/pages/SignInPage.jsx:152 | the password input sets the password |
| SignIn.SignInForm.Continue | frontend/src/pages/SignInPage.jsx:18-26 | an empty email sets "Enter your email or mobile phone number" and stays on the step; otherwise the error is cleared and the step is 2 |
| SignIn.SignInForm.SignIn | frontend/src/pages/SignInPage.jsx:28-49 | an empty password sets "Enter your password" and auth and its stored record are unchanged; otherwise the user and the stored record are the mock user for the email with no name, and the page goes to the origin path; loading ends false |
| SignIn.SignInForm.ChangeEmail | frontend/src/pages/SignInPage.jsx:51-55 | back to step 1 with the password and error cleared and the email kept |
| Carousel.NextIndex | frontend/src/components/HeroCarousel.jsx:36 | next stays in range: it is i + 1, or 0 from the last slide |
| Carousel.PrevIndex | frontend/src/components/HeroCarousel.jsx:30 | previous stays in range: it is i - 1, or the last slide from 0 |
| Carousel.NextPrevInverse | frontend/src/components/HeroCarousel.jsx:29-39 | next then previous, and previous then next, return to the same slide |
| Carousel.AdvanceByIsModular | frontend/src/components/HeroCarousel.jsx:10-39 | k presses of next from slide i reach slide (i + k) mod n |
| Carousel.FullCycle | frontend/src/components/HeroCarousel.jsx:10-39 | n presses of next return to the starting slide |
| Carousel.HeroCarousel.constructor | frontend/src/components/HeroCarousel.jsx:6-7 | the carousel starts at slide 0 with autoplay on |
| Carousel.HeroCarousel.Tick | frontend/src/components/HeroCarousel.jsx:10-21 | an autoplay tick advances only while autoplay is on and there is more than one slide |
| Carousel.HeroCarousel.Next | frontend/src/components/HeroCarousel.jsx:35-39 | the index becomes `NextIndex`, and autoplay pauses |
| Carousel.HeroCarousel.Prev | frontend/src/components/HeroCarousel.jsx:29-33 | the index becomes `PrevIndex`, and autoplay pauses |
| Carousel.HeroCarousel.GoTo | frontend/src/components/HeroCarousel.jsx:23-27 | a dot selects its own slide, and autoplay pauses |
| Carousel.HeroCarousel.ResumeAutoplay | frontend/src/components/HeroCarousel.jsx:23-39 | the delayed callback turns autoplay back on |
| Deal.CalculateTimeLeft | frontend/src/components/DealCard.jsx:9-19 | no time left gives 0:0:0; minutes and seconds are always below 60 |
| Deal.TimeLeftRecombines | frontend/src/components/DealCard.jsx:14-18 | hours × 3600 + minutes × 60 + seconds is the number of whole seconds left |
| Deal.Pad2 | frontend/src/components/DealCard.jsx:135 | a padded field is all digits and at least two characters long |
| Deal.Pad2Denotes | frontend/src/components/DealCard.jsx:135 | a padded field denotes the number it shows, and below 100 it is exactly two digits |
| Deal.TimerText | frontend/src/components/DealCard.jsx:135 | the "HH:MM:SS" text; its layout is `TimerTextLayout` |
| Deal.TimerTextLayout | frontend/src/components/DealCard.jsx:135 | below 100 hours the timer has eight characters, with ":" at positions 2 and 5 and each field denoting its part of the time left |
| Deal.DealTimer.constructor | frontend/src/components/DealCard.jsx:7 | the initial state is the time left at mount |
| Deal.DealTimer.Tick | frontend/src/components/DealCard.jsx:21-26 | each tick recomputes the time left, which is zero once the deal has ended |

## Left out

- Network, timers and effect scheduling. A request is returned as a `RemoteCall` value, and its
  success and the server's reply are parameters of the load operations. Autoplay timeouts and
  the deal's one-second interval are methods that callers invoke.
- The mirrors are modelled as parsed values. `JSON.parse` failures of the cart, wishlist, order
  and compare mirrors are not modelled; only the user record's parse failure is.
- Cart.CartStore.Load: the later sequence of effects is not modelled, only the load itself.
  The mirror write that mount schedules before the first load is a separate finding, modelled
  as pure functions in `Storage`.
- Floating point: prices and ratings are integers, and the page's price bounds are whole
  currency units. `parseFloat` of a non-numeric bound, which filters everything out, is not
  modelled.
- Deal.CalculateTimeLeft: the source divides reals and floors them. For a positive
  difference, those floors are the integer quotient and remainder used here.
- Seqs.SortByKey: the sort is stable, like `Array.prototype.sort`, but stability is not stated.
  The in-place sort of the filtered copy is modelled on sequences.
- Text: lower-casing and the regular-expression classes are ASCII only.
- The sign-in and sign-up failure messages are unreachable, because the mock auth calls always
  succeed. They are therefore not modelled.
- The `cart_id` and `added_at` fields of backend replies are not modelled. The backend's
  `get_wishlist`, `remove_from_wishlist`, orders and reviews listing routes are not modelled.
  Neither are the catalog, deal, slide, category and footer data.
- Database order is modelled as insertion order, and `uuid4()`/`utcnow()` are parameters.
- Orders.NewOrder: one clock reading stands for the three separate `Date` reads of `createOrder`
  (the id, `created_at` and the estimated delivery). They can differ by a few milliseconds.
- Server.Database: the `Product` reply model of FastAPI is not modelled.
- Carousel.HeroCarousel.Next, Prev and GoTo require at least one slide. With no slides the
  carousel renders nothing, so these handlers cannot run.
- Presentation: rendering, routing, star drawing, view modes, price formatting, and
  `showPassword`.

## Findings

| source | as written | input that shows it | evidently intended | confidence | as-written member | corrected member |
|---|---|---|---|---|---|---|
| backend/server.py:545 | `lower()`, then spaces to "-", then "&" removed | category "Home & Kitchen" normalises to "home--kitchen", which the product category "home-kitchen" does not contain, so the search over a catalog holding one "home-kitchen" product returns nothing | "home-kitchen", the slug the catalog's categories and links use, so that product is found | medium, not executed | Server.HomeKitchenSearch | Server.AmpersandSearch |
| frontend/src/context/CartContext.jsx:54-61 (also WishlistContext.jsx:50-56, OrderContext.jsx:50-56) | the backup effect stores the initial empty list in the same commit as the first load, before a failed request reads the mirror back | a saved cart `[x]`, then a page load with the backend down: the cart shows `[]` | the fallback restores the list saved by the previous visit | medium, not executed | Storage.MountFallbackLosesSaved | Storage.MountLoad |
