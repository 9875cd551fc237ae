# Farmers' marketplace backend: the in-memory store, in Dafny

`backend-example.js` is a small Express server for a marketplace where
farmers sell to buyers. Its state is four module-level arrays: `users`,
`products`, `orders` and `reviews`. A dozen HTTP handlers read and change
these arrays: signup, login, profile, farmer-scoped product CRUD, order
status updates, the review list and a farmer dashboard. A bearer-token
middleware guards every route except signup and login.

This project models that store and its handlers, and proves what the
handlers promise about the lists.

- `wrappers.dfy` (`Wrappers`): `Option`.
- `seqs.dfy` (`Seqs`): the array operations the handlers use, defined once:
  - `findIndex` is `FindIndex`;
  - `filter` is `Filter`;
  - `slice(-n)` is `Recent`;
  - `splice(i, 1)` is `RemoveAt`.

  It also holds the lemmas about them: contents, order, appending, removing
  and updating.
- `text.dfy` (`Text`): the e-mail regular expression and the
  `authHeader.split(' ')[1]` token extraction.
- `records.dfy` (`Records`): the records, the error replies with the source's
  status codes and messages, and the password-free projection `Sanitize`.
- `accounts.dfy` (`Accounts`): the auth gate, the signup validator chain,
  and the invariant of `users` (ids equal position + 1, e-mails distinct).
- `farmer.dfy` (`Farmer`): the farmer-scoped views and the ownership
  lookups, with lemmas on how each store change affects every farmer's view.
- `dashboard.dfy` (`Dashboard`): the dashboard aggregate and its lemmas.
- `store.dfy` (`Store`): class `Marketplace`. It has the four lists as `seq`
  fields and one method per handler. Each method states the reply (its
  payload, or the error status and message) and the complete new state. It ends with the signup/login example replayed against
  the contracts.

Foreign calls become parameters:

- the password hash that `bcrypt.hash` returns is `hashed`;
- `bcrypt.compare` is a function parameter `matches(password, hash)`;
- `jwt.verify` is a function parameter `verify(token)` of the gate;
- `Date.now()` and `new Date().toISOString()` are parameters `id` and `now`;
- `parseInt` of a route id is an `Option<int>`, where `None` (NaN) equals
  no id.

Instead of the signed token, signup and login return the claims that
`jwt.sign` would sign (`Grant`). A request-body field is a string, and `""`
stands for every value JavaScript's `!x` treats as missing.

The source never adds orders or reviews: no handler pushes to those two
arrays. The order and review handlers are still specified for any contents
of those lists.

## Model

| member | source | states |
|---|---|---|
| `Seqs.FindIndex` | backend-example.js:232 | The result is -1 exactly when no element satisfies the predicate. Otherwise it is the position of the first element that does. |
| `Seqs.Filter` | backend-example.js:202 | Every element of the result satisfies the predicate, and the result is no longer than the input. |
| `Seqs.FilterCounts` | backend-example.js:202 | The filter keeps each passing element exactly as often as the input holds it, and drops every other element. |
| `Seqs.FilterIsSubsequence` | backend-example.js:202 | The filtered list is a subsequence of the input, so it keeps store order. |
| `Seqs.Recent` | backend-example.js:319-320 | For `n > 0`, `slice(-n)` returns the last `min(n, length)` elements. |
| `Seqs.RemoveAt` | backend-example.js:264 | `splice(i, 1)` shortens the list by one. Elements before `i` stay in place, and the ones after move down by one in the same order. |
| `Seqs.FilterKeepsPassing` | backend-example.js:202 | Filtering loses no element that passes, and keeps the input order. |
| `Seqs.RecentOfFilter` | backend-example.js:319-320 | The tail of a filtered list is a subsequence of the unfiltered list, and all its elements pass the filter. |
| `Text.IsValidEmail` | backend-example.js:102-103 | `emailRegex.test(email)`: split at the first `@`, atoms before it and a domain after it. Its meaning is proved by the three lemmas below. |
| `Text.EmailCheckSound` | backend-example.js:102-103 | Every string the e-mail check accepts matches the pattern `^[^\s@]+@[^\s@]+\.[^\s@]+$`. |
| `Text.EmailCheckComplete` | backend-example.js:102-103 | Every string the pattern matches is accepted by the e-mail check. |
| `Text.EmailCheckMatchesPattern` | backend-example.js:102-103 | The check accepts a string if and only if the pattern matches it. |
| `Text.ValidEmailShape` | backend-example.js:102-103 | An accepted address has no white space and exactly one `@`, with a non-empty part before it. After the `@` there is a `.` that is neither the first nor the last character of the domain. |
| `Text.ShapeIsValidEmail` | backend-example.js:102-103 | Conversely, a string with no white space, exactly one `@` with a non-empty part before it, and a `.` inside the domain passes the check. With `ValidEmailShape`, the check accepts exactly those strings. |
| `Text.EmailExamples` | backend-example.js:102-105 | The check accepts `a@b.com`. |
| `Text.EmailCounterexamples` | backend-example.js:102-105 | The check rejects `a@b.`, `@b.com` and `a b@c.com`. |
| `Text.Split` | backend-example.js:21 | `split(' ')` returns at least one piece, and no piece contains a space. |
| `Text.JoinSplit` | backend-example.js:21 | Joining the pieces of `split(' ')` with spaces gives back the original header. |
| `Text.BearerToken` | backend-example.js:20-25 | A token that is extracted is non-empty and contains no space. A missing header, an empty header, or an empty second piece gives no token. |
| `Text.BearerTokenOfScheme` | backend-example.js:21 | `"<word> <token>"`, optionally followed by a space and more text, yields exactly `<token>`, whatever the first word is. |
| `Text.BearerTokenSource` | backend-example.js:21 | An extracted token is always the text between the header's first and second spaces. With `BearerTokenOfScheme`, that is exactly when a token is extracted. |
| `Records.Sanitize` | backend-example.js:70-77 | The client view of an account: every field but the password hash. Its meaning is stated by `SanitizeDropsOnlyPassword`. |
| `Records.SanitizeDropsOnlyPassword` | backend-example.js:70-77 | Two accounts give the same client view exactly when they differ at most in their password hash. |
| `Records.GrantFor` | backend-example.js:59-77 | The reply carries the sanitised account, and the token claims carry that account's id, e-mail and user type. |
| `Accounts.Authenticate` | backend-example.js:19-34 | No token gives 401 "Access token required". A token the verifier rejects gives 403 "Invalid token". Otherwise the result is `Ok` with exactly the verified claims. |
| `Accounts.CheckSignup` | backend-example.js:96-115 | Signup passes exactly when all five fields are present, the e-mail is valid, the password has at least 6 characters and the type is farmer or buyer. Every rejection is 400. The first failing check, in source order, picks the message. |
| `Accounts.NewUser` | backend-example.js:127-135 | The record signup appends: id `length + 1`, the request fields, the hash and the creation stamp. `SignupKeepsWellFormed` states what it preserves. |
| `Accounts.EmailIndex` | backend-example.js:47 | `users.find` by e-mail, as a position: -1 or a user with exactly that e-mail. |
| `Accounts.IdIndex` | backend-example.js:174 | `users.find` by id, as a position: -1 or a user with exactly that id. |
| `Accounts.SignupKeepsWellFormed` | backend-example.js:117-137 | When the e-mail lookup misses, appending the new record keeps ids equal to position + 1 and keeps e-mails pairwise distinct. |
| `Accounts.IdIndexIsPosition` | backend-example.js:174 | With sequential ids, the lookup by id finds position `id - 1`. It misses exactly when the id is out of range. |
| `Accounts.EmailIndexFindsOwner` | backend-example.js:47 | With distinct e-mails, the lookup by a stored user's e-mail finds that user. |
| `Accounts.EmailIndexMisses` | backend-example.js:118-121 | The e-mail lookup misses exactly when no stored user has that e-mail. |
| `Farmer.ProductsOf` | backend-example.js:202 | Every product in the list belongs to the farmer. `ProductsOfExact` adds that none is missing and the order is kept. |
| `Farmer.OrdersOf` | backend-example.js:272 | Every order in the list belongs to the farmer. |
| `Farmer.ReviewsOf` | backend-example.js:298 | Every review in the list belongs to the farmer. |
| `Farmer.ProductSlot` | backend-example.js:232 | The lookup gives -1, or the position of a product with that id that the caller owns. |
| `Farmer.OrderSlot` | backend-example.js:282 | The lookup gives -1, or the position of an order with that id that the caller owns. |
| `Farmer.Revised` | backend-example.js:239-249 | The updated product keeps its id, owner and creation stamp. |
| `Farmer.WithStatus` | backend-example.js:288-289 | The updated order keeps its id, owner, total and details. |
| `Farmer.ProductsOfExact` | backend-example.js:202 | A farmer's product list holds exactly that farmer's products, each as often as the store holds it, in store order. |
| `Farmer.ProductSlotOwned` | backend-example.js:232-236 | The update/delete lookup succeeds exactly when the caller owns a product with that id, and then finds the first one. |
| `Farmer.OrderSlotOwned` | backend-example.js:282-286 | The status lookup succeeds exactly when the caller owns an order with that id, and then finds the first one. |
| `Farmer.ForeignProductNotFound` | backend-example.js:232-236 | An id that only other farmers own, or an id that did not parse, is not found. |
| `Farmer.ProductsOfAfterAdd` | backend-example.js:207-225 | Adding a product appends it to its owner's list. Every other farmer's list is unchanged. |
| `Farmer.ProductsOfAfterDelete` | backend-example.js:255-265 | A delete shortens only the owner's list, by one. Every other farmer's list is unchanged. |
| `Farmer.ProductsOfAfterUpdate` | backend-example.js:229-251 | An update changes no farmer's product count, and changes no list other than the owner's. |
| `Farmer.OrdersOfAfterStatus` | backend-example.js:277-291 | A status change changes no farmer's order count, and changes no list other than the owner's. |
| `Dashboard.Revenue` | backend-example.js:310 | `reduce` of the order totals. `RevenueOfFilteredOrders` relates it to the store. |
| `Dashboard.RatingSum` | backend-example.js:312 | `reduce` of the ratings. `RatingSumWithin` bounds it. |
| `Dashboard.AverageRating` | backend-example.js:311-312 | The average is 0 with no reviews. Otherwise the average times the count equals the sum of the ratings. |
| `Dashboard.DashboardOf` | backend-example.js:303-321 | The two counts are the lengths of the farmer's product and order lists. `recentOrders` and `recentReviews` each hold `min(5, n)` entries of the farmer's `n` orders or reviews. |
| `Dashboard.DashboardRevenue` | backend-example.js:310 | The dashboard's revenue equals the farmer's revenue summed straight over the store. |
| `Dashboard.DashboardAverage` | backend-example.js:311-312 | The dashboard's average is `AverageRating` of the farmer's reviews, and 0 when there are none. |
| `Dashboard.DashboardRecent` | backend-example.js:319-320 | The recent orders and reviews are the last entries of the farmer's views, not the first. |
| `Dashboard.RecentInStoreOrder` | backend-example.js:319-320 | The recent orders and reviews belong to the farmer and appear in store order, as subsequences of the store lists. |
| `Dashboard.RevenueOfFilteredOrders` | backend-example.js:310 | The revenue summed over the farmer's orders equals the sum over the whole store that counts only that farmer's orders. |
| `Dashboard.StatusKeepsStoreRevenue` | backend-example.js:288-289 | Changing an order's status leaves every farmer's revenue unchanged. |
| `Dashboard.StatusKeepsDashboardTotals` | backend-example.js:306-317 | After a status change, every farmer's dashboard shows the same order count and revenue. |
| `Dashboard.RatingSumWithin` | backend-example.js:312 | The sum of n ratings, each within [lo, hi], lies within [n·lo, n·hi]. |
| `Dashboard.AverageWithin` | backend-example.js:311-312 | The average of ratings that lie within [lo, hi] also lies within [lo, hi]. |
| `Store.Marketplace.constructor` | backend-example.js:15 | The store starts with four empty lists, and the users invariant holds. |
| `Store.Marketplace.Signup` | backend-example.js:92-170 | A validator rejection, or 409 for an existing e-mail, leaves `users` unchanged. On success, exactly one record is appended, with id `old length + 1`, and the reply is its claims and sanitised view. The users invariant is kept. |
| `Store.Marketplace.Login` | backend-example.js:37-89 | A missing field gives 400. Otherwise login succeeds exactly when a stored user has that e-mail and the password matches its hash. Every other case gives the same 401 "Invalid email or password". Login never changes the store. |
| `Store.Marketplace.Profile` | backend-example.js:173-189 | Returns the sanitised account at position `userId - 1`, or 404 "User not found" when the id is out of range. |
| `Store.Marketplace.ListProducts` | backend-example.js:199-204 | Returns only the caller's products and misses none of them, in store order. |
| `Store.Marketplace.AddProduct` | backend-example.js:207-226 | Appends one record with the given id, the caller as owner, the body fields, the creation stamp and no `updatedAt`. |
| `Store.Marketplace.UpdateProduct` | backend-example.js:229-252 | A miss gives 404 with no change. On a hit, exactly the found element is replaced: `id`, `farmerId` and `createdAt` are kept, the body fields are replaced and `updatedAt` is stamped. |
| `Store.Marketplace.DeleteProduct` | backend-example.js:255-266 | A miss gives 404 with no change. On a hit, exactly the found element is spliced out. |
| `Store.Marketplace.ListOrders` | backend-example.js:269-274 | Returns only the caller's orders and misses none of them, in store order. |
| `Store.Marketplace.UpdateOrderStatus` | backend-example.js:277-292 | A miss gives 404 with no change. On a hit, only `status` (any string) and `updatedAt` of the found order change, and every other order is kept. |
| `Store.Marketplace.ListReviews` | backend-example.js:295-300 | Returns only the caller's reviews and misses none of them, in store order. |
| `Store.Marketplace.FarmerDashboard` | backend-example.js:303-322 | Returns the dashboard of the caller over the current lists. |

## Left out

- Express wiring, CORS, JSON body parsing, `app.listen`, `module.exports`
  and console logging: framework plumbing with no store logic.
- Success status codes and fixed success messages: signup's 201 with
  "Account created successfully", login's "Login successful" and
  add-product's 201 are not carried in the replies. The model's `Ok` values
  hold only the payload (claims, account view, product). Error replies do
  carry their status codes and messages.
- The logout handler: it only answers with a fixed message behind the gate,
  and it reads and changes nothing.
- The 500 replies of signup and login: they fire only when a foreign call
  (hashing, signing) throws.
- bcrypt: the hash is a parameter and the comparison a function parameter.
  The hashing algorithm, salting and cost factor are not modelled.
- JWT: signing is replaced by returning the claims to be signed. Verification
  is a function parameter of the gate. Token expiry (24 hours) and the
  secret are not modelled.
- Wall-clock time: `Date.now()` product ids and ISO time stamps are
  parameters. The model does not capture that two products added in the
  same millisecond share an id; the lookups then act on the first match.
- Concurrency: handlers are modelled as atomic steps. Interleaving across
  the `await` points of signup and login is not captured, so the
  check-then-append race on e-mail uniqueness is out of scope.
- Dynamic typing: body fields are strings (and ints for price, stock and
  minimum stock). A field that is absent from an update body would be
  stored as `undefined`; the model stores what it is given.
- `Accounts.CheckSignup`: `password.length` counts UTF-16 code units in
  JavaScript, but the model counts Unicode scalar values. The two differ
  for characters outside the Basic Multilingual Plane.
- `Dashboard.DashboardOf`: `total` and `rating` are integers and the
  average is an exact `real`. JavaScript's floating-point rounding is not
  modelled.
- Handlers behind the gate take the verified user id as a parameter. The
  source does not check that the caller is a farmer, and neither does the
  model.
