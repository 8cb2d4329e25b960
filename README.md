# Storefront cart and authentication, modelled in Dafny

This project models the core of a small storefront. The backend is a REST API over a document store. It has three parts:

- **Registration and login.** These issue a signed bearer token.
- **An access gate.** It checks the `Authorization: Bearer <token>` header (section 2.1 of RFC 6750) on every cart route.
- **A per-user cart.** A user can list it, add to it (creating a line or adding to an existing one), set a line's quantity, and remove a line.

The frontend keeps three pieces of client state: the cart, the session and the product catalogue. Each is updated by reducers when a request is pending, fulfilled or rejected. The product page derives the list of categories and the products shown for the selected category.

## How the model is built

**Request values.** They are JSON `Value`s: undefined, null, booleans, numbers, strings and objects. The coercions the code depends on are written out (module `Values`):

- JavaScript truthiness;
- the number that `<` compares;
- the document store's casts to a Number or String path.

This is how the validators' edge cases are captured. A price of 0 is refused but a negative price passes. A falsy quantity skips the quantity check. The `quantity = 1` default applies only to an undefined quantity.

**Numbers are integers.** Prices are in cents, so totals are exact.

**Schemas.** `CartSchema` and `UserSchema` give the record types, how a new record is validated, and the store invariants:

- one cart line per (user, product) pair, and unique line ids;
- unique emails, stored lowercased and trimmed.

**Routes.** Each route is a function from the stored records to the new records and the reply: `PostCart`, `PutCart`, `DeleteCart` and `RegisterResult`. The store classes `CartStore` and `UserStore` hold the records. Their methods make the same change in place, and each method's `ensures` ties it to the route function. Login and listing change nothing; login is a plain function.

**Parameters for code outside the model.** The token verifier, password hashing, hash comparison and token signing are function parameters. So is JSON parsing of the stored user on the client.

**Client reducers.** They are methods of `CartState`, `AuthState` and `ProductState`. Registration and login share the same pending, fulfilled and rejected reducers, so those are modelled once.

**Client and server together.** Module `CartSync` proves that the client's cart list stays equal to the server's listing for the user after each successful add, update and remove.

### Edge cases the code lets through

The model does what the code does in each case:

- **Price.** The validator refuses a price of 0 and lets any negative price through (`Validation.PriceGuardQuirks`).
- **Quantity on add.** The validator skips falsy quantities:
  - `0` on an existing line adds nothing and still answers 200;
  - `0` on a new line fails the schema's `min: 1` and answers 500.
- **Quantity on update.** Falsy values and values below 1 are refused with 400. A non-numeric string passes that guard. The line is looked up before the value is cast, so the request answers 404 when the user has no line with that id, and 500 when the line exists and the store's cast fails (`CartRoutes.UpdateFailsOnlyOnCast`, `CartRoutes.MissingOrForeignLineNotFound`).
- **Add is read-then-write.** The add route reads the line and then writes it, in two store calls. The model treats each request as one sequential step (see "Left out").

## Model

| member | source | states |
|---|---|---|
| Values.DecimalRoundTrip | backend/models/Cart.js:15-18 | Reading back the decimal numeral the String cast writes for a natural number gives that number. |
| Values.CastAgreesWithToNumber | backend/routes/cartRoutes.js:85 | Where the store's Number cast succeeds, it yields the same number that JavaScript's `<` compares. |
| UserSchema.TrimStartShape | backend/models/User.js:18-22 | Trimming the start removes exactly the leading run of white space and keeps the rest as it was. |
| UserSchema.TrimEndShape | backend/models/User.js:18-22 | Trimming the end removes exactly the trailing run of white space and keeps the rest as it was. |
| UserSchema.Trim | backend/models/User.js:18-22 | The trimmed string starts and ends with a non-space character, or is empty. |
| UserSchema.TrimIdempotent | backend/models/User.js:18-22 | Trimming a trimmed string changes nothing. |
| UserSchema.ToLower | backend/models/User.js:10 | The `lowercase` setter keeps the length and lowercases each character in place. |
| UserSchema.NormalizeEmail | backend/models/User.js:6-12 | The stored form of an email: lowercased, then trimmed. No contract of its own; its properties are NormalizeEmailNoUpper, NormalizeOrderIrrelevant and NormalizeEmailIdempotent. |
| UserSchema.NormalizeEmailNoUpper | backend/models/User.js:10 | A stored email holds no upper-case letter. |
| UserSchema.UserStoreInvariant | backend/models/User.js:5-22 | The user store's invariant: emails unique (the `unique` index) and every stored user well formed, with distinct ids below the next fresh one. A predicate; AppendUserPreservesInvariant and RegisterPreservesInvariant show registration keeps it. |
| UserSchema.NormalizeOrderIrrelevant | backend/models/User.js:6-12 | Lowercasing then trimming an email equals trimming then lowercasing it. |
| UserSchema.NormalizeEmailIdempotent | backend/models/User.js:6-12 | The stored form of a stored email is itself, so a stored email compares equal to a query for it. |
| UserSchema.AppendUserPreservesInvariant | backend/models/User.js:5-22 | Saving a well-formed user under a fresh id, with an email nobody holds, keeps emails and ids unique and every user well formed. |
| UserSchema.NewUser | backend/models/User.js:5-22 | A user document is saved iff the normalised email is non-empty, the password has at least 6 characters and the trimmed name is non-empty. The saved document holds the normalised email and the trimmed name. |
| CartSchema.RequiredNumber | backend/models/Cart.js:11-14 | A required Number path succeeds exactly when the cast yields a number, and keeps that number. |
| CartSchema.RequiredString | backend/models/Cart.js:15-18 | A required String path succeeds exactly when the cast yields a non-empty string, and keeps it. |
| CartSchema.StoreInvariant | backend/models/Cart.js:27-39 | The cart store's invariant: one line per (user, product) pair (the compound unique index), unique ids, and every line with a quantity of at least 1 and a non-empty title and image. A predicate; the `*PreservesInvariant` lemmas show each route keeps it. |
| CartSchema.NewLine | backend/models/Cart.js:5-35 | A new line is saved exactly when product id and price cast to numbers, title and image cast to non-empty strings, and the quantity (1 when undefined) casts to a number of at least 1. The saved line holds those cast values, the given id and the user. A missing required field, a null quantity or a numeric quantity below 1 is refused. |
| Validation.ValidateCartItem | backend/middleware/validation.js:5-26 | Each of the five messages is returned iff its guard is the first to fail, and none iff every guard passes. |
| Validation.PriceGuardQuirks | backend/middleware/validation.js:15-17 | A price of 0 is refused; every negative number passes the price guard. |
| Validation.QuantityGuardQuirks | backend/middleware/validation.js:21-23 | A falsy quantity is never refused by the quantity guard. |
| Validation.ValidateRegister | backend/middleware/validation.js:29-47 | The email, '@', password-length and name guards, in order, each iff it is the first to fail. |
| Validation.ValidateLogin | backend/middleware/validation.js:50-61 | Missing email, then missing password, each iff it is the first to fail. |
| AuthGate.ExtractToken | backend/middleware/auth.js:15 | Removing the first "Bearer " from a header that starts with it leaves exactly the text after the prefix. |
| AuthGate.Authenticate | backend/middleware/auth.js:5-27 | "No token" iff the header is absent or lacks the prefix. "Token is not valid" iff the verifier rejects the token after the prefix. Otherwise access is granted with the verifier's user id. |
| CartRoutes.Owned | backend/routes/cartRoutes.js:13 | Every line of the listing belongs to the user, and the listing never holds more lines than the store. |
| CartRoutes.OwnedMembers | backend/routes/cartRoutes.js:13 | A line is in the listing exactly when it is in the store and belongs to the user. |
| CartRoutes.FindPair | backend/routes/cartRoutes.js:38-41 | The lookup by (user, product) returns the first matching line, or none when no line matches. |
| CartRoutes.FindLine | backend/routes/cartRoutes.js:89-92 | The lookup by (id, user) returns the first matching line, or none when no line matches. |
| CartRoutes.Increment | backend/routes/cartRoutes.js:35-45 | The amount `+=` adds after the default: 1 for undefined, the number itself, and 0 exactly for the other falsy values. |
| CartRoutes.CartStore.Get | backend/routes/cartRoutes.js:11-28 | 401 with the gate's message, or exactly the user's lines with their count and their price-times-quantity total. |
| CartRoutes.CartStore.Post | backend/routes/cartRoutes.js:33-76 | Keeps the store invariant; the new store and reply are those of the add route. |
| CartRoutes.CartStore.Put | backend/routes/cartRoutes.js:81-110 | Keeps the store invariant; the new store and reply are those of the update route. |
| CartRoutes.CartStore.Delete | backend/routes/cartRoutes.js:115-134 | Keeps the store invariant; the new store and reply are those of the remove route. |
| CartRoutes.AddItem | backend/routes/cartRoutes.js:35-71 | The add handler either answers with a line that belongs to the user and is in the new store, or answers 500 with the store unchanged. AddToExistingLine, AddCreatesLine and AddRaisesPairQuantity pin down each case. |
| CartRoutes.PostCart | backend/routes/cartRoutes.js:33-76 | Every refused POST (401, 400 or 500) leaves the store and the next id unchanged; the only other reply is a line. |
| CartRoutes.UpdateItem | backend/routes/cartRoutes.js:83-109 | The update handler never changes the store's size or the next id, changes nothing when it refuses, and on success answers with the user's line under that id, now holding a quantity of at least 1. |
| CartRoutes.PutCart | backend/routes/cartRoutes.js:81-110 | A PUT never changes the store's size or the next id, and a refused one changes nothing. |
| CartRoutes.RemoveItem | backend/routes/cartRoutes.js:117-129 | The remove handler either deletes exactly one line or answers 404 with the store unchanged; the next id never changes. RemoveDeletesLine states which line goes. |
| CartRoutes.DeleteCart | backend/routes/cartRoutes.js:115-134 | A refused DELETE changes nothing, and a successful one removes exactly one line. |
| CartRoutes.AddPreservesInvariant | backend/routes/cartRoutes.js:43-71 | After an add, there is still one line per (user, product), ids are unique and every line is well formed. |
| CartRoutes.PostPreservesInvariant | backend/routes/cartRoutes.js:33-76 | The full add request, gate and validation included, keeps the store invariant. |
| CartRoutes.PutPreservesInvariant | backend/routes/cartRoutes.js:81-110 | The update request keeps the store invariant. |
| CartSchema.RemoveLinePreservesInvariant | backend/models/Cart.js:4-40 | Deleting any one line keeps the (user, product) pairs and the ids unique and every line well formed. |
| CartRoutes.DeletePreservesInvariant | backend/routes/cartRoutes.js:115-134 | The remove request keeps the store invariant. |
| CartRoutes.Total | backend/routes/cartRoutes.js:16 | The listed total: `reduce` of price times quantity from 0. No contract of its own; its properties are SumFromShift, TotalSingle and TotalAppend. |
| CartRoutes.SumFromShift | backend/routes/cartRoutes.js:16 | Starting the `reduce` at any value only adds that value to the total. |
| CartRoutes.TotalSingle | backend/routes/cartRoutes.js:16 | The total of one line is its price times its quantity. |
| CartRoutes.TotalAppend | backend/routes/cartRoutes.js:16 | The left-to-right sum is additive over concatenated runs of lines. |
| CartRoutes.RoutesIsolateUsers | backend/routes/cartRoutes.js:33-134 | An add, update or remove never changes the lines of any user other than the one the token names. |
| CartRoutes.AddIsolatesUsers | backend/routes/cartRoutes.js:38-71 | The add handler leaves other users' lines as they were. |
| CartRoutes.UpdateIsolatesUsers | backend/routes/cartRoutes.js:89-99 | The update handler leaves other users' lines as they were. |
| CartRoutes.RemoveIsolatesUsers | backend/routes/cartRoutes.js:117-120 | The remove handler leaves other users' lines as they were. |
| CartRoutes.AddToExistingLine | backend/routes/cartRoutes.js:43-52 | With a line for the pair, add raises its quantity by the increment, answers 200 with that line and changes nothing else. |
| CartRoutes.AddCreatesLine | backend/routes/cartRoutes.js:53-70 | Without a line for the pair, add appends one line with the request's product id, price, title, image and increment and a fresh id, answering 201. Otherwise it answers 500 and stores nothing, which always happens when the increment is 0. |
| CartRoutes.AddRaisesPairQuantity | backend/routes/cartRoutes.js:38-71 | A successful add raises the pair's quantity by the increment and leaves every other pair's quantity unchanged. |
| CartRoutes.FindPairUnique | backend/models/Cart.js:39 | Under the compound unique index, the lookup finds the one line of the pair. |
| CartRoutes.AddTwiceAccumulates | backend/routes/cartRoutes.js:33-76 | Two adds of a new product give one line whose quantity is the sum of the two increments; the first answers 201, the second 200. |
| CartRoutes.UpdateRejectsBadQuantity | backend/routes/cartRoutes.js:85-87 | A falsy quantity, or one below 1, is answered 400 and nothing changes. |
| CartRoutes.MissingOrForeignLineNotFound | backend/routes/cartRoutes.js:89-96 | A line id that does not exist and a line of another user both get 404 from update and remove, and nothing changes. |
| CartRoutes.UpdateFailsOnlyOnCast | backend/routes/cartRoutes.js:85-99 | Past the guard, update answers 500 iff the store cannot cast the quantity; the schema's minimum can never fire. |
| CartRoutes.UpdateSetsQuantity | backend/routes/cartRoutes.js:98-105 | Update sets the line's quantity to exactly the value given, answers 200 with that line and changes nothing else. |
| CartRoutes.UpdateIdempotent | backend/routes/cartRoutes.js:81-110 | Repeating an update gives the same store and the same reply. |
| CartRoutes.RemoveDeletesLine | backend/routes/cartRoutes.js:117-129 | Remove drops exactly the matched line and keeps the others in order. |
| CartRoutes.RemoveTwiceNotFound | backend/routes/cartRoutes.js:117-124 | Once a line is removed, removing its id again answers 404. |
| CartRoutes.AddMovesTotal | backend/routes/cartRoutes.js:16 | After a successful add, the user's listed total grows by the line's price times the increment. |
| CartRoutes.UpdateMovesTotal | backend/routes/cartRoutes.js:16 | After a successful update, the user's total changes by the price times the change in quantity. |
| CartRoutes.RemoveMovesTotal | backend/routes/cartRoutes.js:16 | After a remove, the user's total drops by the removed line's price times its quantity. |
| AuthRoutes.IndexOfEmail | backend/routes/authRoutes.js:17 | The search on a stored email finds the first user holding exactly that email, or none when no user holds it. |
| AuthRoutes.FindByEmail | backend/routes/authRoutes.js:17 | The lookup finds the first user whose stored email equals the normalised query, or none when no user holds it. |
| AuthRoutes.Login | backend/routes/authRoutes.js:60-96 | 400 with the validator's message. An unknown email or a wrong password both get 400 "Invalid email or password". Success happens iff the lookup finds the user and the comparison accepts, and answers 200 with a seven-day token for that user and the user's id, email and name. |
| AuthRoutes.RegisterResult | backend/routes/authRoutes.js:12-55 | A body the validator refuses gets 400 with the validator's message; a taken email (in its stored form) gets 400 "User already exists"; a user the schema refuses gets 500. Registration succeeds exactly when validation passes, the email is free and the schema accepts the user, and then answers 201, keeps every existing user in place and appends exactly one user under the next id. Every refusal leaves the store and next id unchanged. |
| AuthRoutes.UserStore.Register | backend/routes/authRoutes.js:12-55 | Keeps the user-store invariant; the new store and reply are those of the registration route. |
| AuthRoutes.RegisterPreservesInvariant | backend/routes/authRoutes.js:17-33 | Registration keeps emails and ids unique and every user well formed. |
| AuthRoutes.RegisterRejectsTakenEmail | backend/routes/authRoutes.js:17-20 | An email already stored, in any case or surrounding whitespace, gets 400 "User already exists with this email", and no user is added. |
| AuthRoutes.RegisterStoresDigest | backend/routes/authRoutes.js:23-50 | A successful registration adds exactly one user, holding the hash of the password and the normalised email and name. It answers 201 with a seven-day token for the new id. |
| AuthRoutes.RegisterTwiceConflicts | backend/routes/authRoutes.js:12-55 | After a successful registration, registering the same email again is refused as a duplicate. |
| AuthRoutes.LoginHidesWhichCheckFailed | backend/routes/authRoutes.js:65-74 | An unknown email and a known email with the wrong password get identical replies. |
| AuthRoutes.RegisterThenLogin | backend/routes/authRoutes.js:60-91 | When the comparison accepts a password against its own hash, logging in after registering succeeds with the new user and a token for the new id. |
| CartSlice.IndexOfProduct | frontend/src/redux/cartSlice.js:169-171 | findIndex by product: the first item with the product, or -1 iff there is none. |
| CartSlice.IndexOfId | frontend/src/redux/cartSlice.js:184 | findIndex by id: the first item with the id, or -1 iff there is none. |
| CartSlice.ReplaceOrAppend | frontend/src/redux/cartSlice.js:169-176 | The first item with the payload's product is replaced, keeping the length and the other items; otherwise the payload is appended. |
| CartSlice.ReplaceById | frontend/src/redux/cartSlice.js:184-187 | The first item with the payload's id is replaced and the others kept; with no such item the list is unchanged. |
| CartSlice.WithoutId | frontend/src/redux/cartSlice.js:191 | No item with the id is left, and the list never grows. |
| CartSlice.WithoutIdMembers | frontend/src/redux/cartSlice.js:191 | An item is kept iff it was present and has another id. |
| CartSlice.WithoutIdCounts | frontend/src/redux/cartSlice.js:191 | Every copy of an item with another id is kept; every item with the id is dropped. |
| CartSlice.WithoutIdAppend | frontend/src/redux/cartSlice.js:191 | The filter distributes over concatenation, so the kept items stay in their order. |
| CartSlice.WithoutIdNoMatch | frontend/src/redux/cartSlice.js:191 | A list with no item carrying the id is returned unchanged. |
| CartSlice.WithoutIdIdempotent | frontend/src/redux/cartSlice.js:191 | Removing the same id twice equals removing it once. |
| CartSlice.ReplaceOrAppendKeepsProductsUnique | frontend/src/redux/cartSlice.js:166-177 | If no product appears twice before an add, none does after. |
| CartSlice.ReplaceOrAppendIdempotent | frontend/src/redux/cartSlice.js:169-176 | Applying the same fulfilled add twice equals applying it once. |
| CartSlice.ReplaceByIdKeepsIdsUnique | frontend/src/redux/cartSlice.js:183-188 | An update keeps item ids unique. |
| CartSlice.CartState.constructor | frontend/src/redux/cartSlice.js:137-141 | Starts with no items, not loading, no error. |
| CartSlice.CartState.ClearCart | frontend/src/redux/cartSlice.js:143-145 | Empties the items and leaves loading and error alone. |
| CartSlice.CartState.FetchPending | frontend/src/redux/cartSlice.js:150-153 | Loading, error cleared, items kept. |
| CartSlice.CartState.FetchFulfilled | frontend/src/redux/cartSlice.js:154-157 | Not loading, items replaced by the payload, error kept. |
| CartSlice.CartState.FetchRejected | frontend/src/redux/cartSlice.js:158-161 | Not loading, error set to the payload, items kept. |
| CartSlice.CartState.AddPending | frontend/src/redux/cartSlice.js:163-165 | Loading; error and items kept. |
| CartSlice.CartState.AddFulfilled | frontend/src/redux/cartSlice.js:166-177 | Not loading, error kept, items replaced-or-appended with the payload. |
| CartSlice.CartState.AddRejected | frontend/src/redux/cartSlice.js:178-181 | Not loading, error set to the payload, items kept. |
| CartSlice.CartState.UpdateFulfilled | frontend/src/redux/cartSlice.js:183-188 | Items updated by id; loading and error unchanged. |
| CartSlice.CartState.RemoveFulfilled | frontend/src/redux/cartSlice.js:190-192 | Items filtered by id; loading and error unchanged. |
| CartSync.IndexOfProductInListing | frontend/src/redux/cartSlice.js:169-171 | On the server's listing, the client's search by product finds the very line the server's (user, product) lookup finds. |
| CartSync.IndexOfIdInListing | frontend/src/redux/cartSlice.js:184 | On the server's listing, the client's search by id finds the very line the server's (id, user) lookup finds. |
| CartSync.AddKeepsClientInSync | frontend/src/redux/cartSlice.js:166-177 | A client holding the user's listing, after the fulfilled add with the route's reply, holds the listing of the new store. |
| CartSync.UpdateKeepsClientInSync | frontend/src/redux/cartSlice.js:183-188 | The same for a successful update. |
| CartSync.RemoveKeepsClientInSync | frontend/src/redux/cartSlice.js:190-192 | The same for a successful remove, given unique line ids. |
| AuthSlice.InitialState | frontend/src/redux/authSlice.js:65-76 | Authenticated iff a non-empty token is stored. An empty stored string counts as absent. The user is the parsed stored user or none. The state starts idle with no error. |
| AuthSlice.ReloadRestoresSession | frontend/src/redux/authSlice.js:65-76 | With the token and serialised user a login stores, a reload restores the authenticated session for that user. |
| AuthSlice.EmptyStorageSignedOut | frontend/src/redux/authSlice.js:65-76 | With nothing stored, or empty strings stored, the session starts signed out. |
| AuthSlice.AuthState.constructor | frontend/src/redux/authSlice.js:79-81 | The slice starts in the initial state read from storage. |
| AuthSlice.AuthState.Logout | frontend/src/redux/authSlice.js:83-89 | User and token cleared, signed out; loading and error unchanged. |
| AuthSlice.AuthState.ClearError | frontend/src/redux/authSlice.js:90-92 | Only the error changes, to none. |
| AuthSlice.AuthState.Pending | frontend/src/redux/authSlice.js:97-100 | Loading and error cleared; the session unchanged (login pending, lines 112-115, is the same). |
| AuthSlice.AuthState.Fulfilled | frontend/src/redux/authSlice.js:101-106 | Not loading, signed in with the reply's user and token (login fulfilled, lines 116-121, is the same). |
| AuthSlice.AuthState.Rejected | frontend/src/redux/authSlice.js:107-110 | Not loading, error set; user, token and sign-in flag unchanged (login rejected, lines 122-125, is the same). |
| ProductSlice.ProductState.constructor | frontend/src/redux/productSlice.js:28-32 | Starts with no items, not loading, no error. |
| ProductSlice.ProductState.Pending | frontend/src/redux/productSlice.js:36-39 | Loading, error cleared, items kept. |
| ProductSlice.ProductState.Fulfilled | frontend/src/redux/productSlice.js:40-43 | Not loading, items replaced by the payload. |
| ProductSlice.ProductState.Rejected | frontend/src/redux/productSlice.js:44-47 | Not loading, error set to the payload, items kept. |
| ProductList.CategoryList | frontend/src/pages/ProductList.jsx:17 | One category per product, position by position. |
| ProductList.Distinct | frontend/src/pages/ProductList.jsx:17 | The spread of a Set built from a list is never longer than the list; DistinctMembers, DistinctNoDuplicates and DistinctFirstOccurrenceOrder state what it keeps and in what order. |
| ProductList.Categories | frontend/src/pages/ProductList.jsx:17 | No category twice, and a category is offered iff some product has it. |
| ProductList.DistinctMembers | frontend/src/pages/ProductList.jsx:17 | The de-duplicated list holds exactly the values of the list. |
| ProductList.DistinctNoDuplicates | frontend/src/pages/ProductList.jsx:17 | The de-duplicated list holds no value twice. |
| ProductList.DistinctFirstOccurrenceOrder | frontend/src/pages/ProductList.jsx:17 | Values appear in the order of their first occurrence. |
| ProductList.CategoriesInFirstAppearanceOrder | frontend/src/pages/ProductList.jsx:17 | Categories are offered in the order they first appear among the products. |
| ProductList.WithCategory | frontend/src/pages/ProductList.jsx:22 | Every product kept has the selected category, and the list never grows. |
| ProductList.FilteredProducts | frontend/src/pages/ProductList.jsx:20-22 | "all" shows the catalogue unchanged; any other selection shows exactly the products with that category. |
| ProductList.WithCategoryMembers | frontend/src/pages/ProductList.jsx:22 | A product is kept iff it is in the catalogue and has the selected category. |
| ProductList.WithCategoryAppend | frontend/src/pages/ProductList.jsx:22 | The filter distributes over concatenation, so kept products stay in catalogue order. |
| ProductList.WithCategoryCounts | frontend/src/pages/ProductList.jsx:22 | Every copy of a matching product is kept and no other product. |
| ProductList.OfferedCategoryNonEmpty | frontend/src/pages/ProductList.jsx:17-22 | Selecting any offered category other than "all" shows at least one product. |

## Left out

- Money: prices are integers in cents. Floating-point arithmetic and the rounding of the listed total to two decimals are not modelled.
- Concurrency is not modelled: each request is one atomic step on a sequential store. Two simultaneous adds of a new product can race between the lookup and the save. In the code the loser then hits the unique index and gets 500.
- Timestamps (`createdAt`, `updatedAt`) are not modelled.
- Ids are natural numbers: the store's object ids, and the 500 a malformed `:id` or user id causes when it cannot be cast, are not modelled.
- Numeric strings: only plain decimal digit strings are read as numbers. Other forms JavaScript or the store accept (signs, decimals, exponents, hexadecimal, surrounding spaces) count as not numeric.
- Non-integer numbers are not modelled.
- Objects and arrays compare as NaN. In JavaScript a one-element array converts to its element.
- CartRoutes.AddItem: a `productId` sent as an object or an array reaches the pair lookup as a query operator (an object such as `{"$gt": 0}` as written, an array as `$in`). In the code it can then match an existing line of the user, raise its quantity and answer 200. The model casts such a value, fails, and answers 500 with the store unchanged.
- Query order: the store is a sequence in insertion order, and the model takes that as the order `Cart.find({ userId })` returns. The code asks for no sort, so the real order is whatever the store gives. The exact list equalities between client and server (`CartSync`) rest on this choice.
- Registration and login fields are strings, and a missing field is the empty string; the validators treat both alike. Non-string values in those fields are not modelled.
- UserSchema.ToLower: lowercases ASCII letters only. JavaScript lowercases all of Unicode.
- String lengths count characters, not UTF-16 code units.
- Password hashing (bcrypt with a fresh salt), hash comparison, token signing and token verification (JSON Web Tokens, RFC 7519) are function parameters. Their cryptography, the secret and the clock are not modelled.
- A verified token whose payload lacks a user id is not modelled.
- A token of a deleted user still passes the gate, as in the code: the gate does not consult the user store.
- Failures of the store itself (lost connection and the like) are not modelled. This means the catch-all 500 replies of the list route ("Error fetching cart items"), the remove route ("Error removing item from cart") and login ("Server error during login") never occur in the model.
- The validation errors the store raises are recorded as `SchemaError` but are not passed into the replies; the code sends fixed messages too.
- The `success: true` field of the replies is not modelled.
- The `logout` reducer's `localStorage.removeItem` calls for the token and the user are not modelled; the model clears only the in-memory state.
- The client's request thunks (`fetch` calls), their `localStorage` writes, and `JSON.parse` throwing on a malformed stored user are not modelled. The initial state takes the stored strings and a parse function as parameters.
- Database connection, server wiring, product routes and presentational components are not part of this model.
