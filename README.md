# Contactless restaurant ordering backend: domain rules in Dafny

This project models the domain layer of a small Express/Mongoose ordering
backend. It covers:

- **orders**: creation with a catalog snapshot, owner-or-staff access,
  pending-only edits, status changes, and the two save hooks that keep the
  status history and the total;
- **ratings**: the per-user upsert into a menu item's ratings and the
  rounded average;
- **authentication and routing**: the `protect` and `authorize` middleware
  and the route-to-role tables of `/api/orders` and `/api/menu`;
- **users**: the user-table operations of the user controller.

The document store is `Store.Database`, a class holding three maps from id
to record: orders, menu items and users. Each state-changing controller
action is a method that changes `db` through `modifies db`. Its `ensures`
ties the result and the new tables to a pure outcome function, such as
`OrderController.CreateOrderOutcome` or `MenuController.RateOutcome`. The
properties are lemmas about those functions. The read-only actions
(`getOrder`, `getMyOrders`, `getOrders`, `getMenuItems`, `getUsers`,
`getUser`) are functions or methods over the maps and change nothing.

Mongoose documents are the classes `OrderModel.OrderDocument` and
`MenuItemModel.MenuItemDocument`:

- a setter updates the document's fields in place;
- `OrderDocument` tracks whether `status` was assigned a new value;
- `Save()` runs the schema validators first, then the `pre('save')` hooks in
  registration order.

Errors are `Http.Result` values. An `HttpError(status, message)` carries the
message the controller passes to `createError`. A validation chain's
messages are `ValidationFailed`. A failure inside `save()` or an update
surfaces as 500, because the server's error handler sends `err.status || 500`.

The following are parameters of the model:

- **Time**: `now`, an integer, stands for `Date.now()`.
- **Token verification**: `verify: string -> Option<string>` stands for
  `jwt.verify`.
- **The database sort**: `sortEngine` stands for the database ordering the
  selected documents by a sort string. The listings require it to return each
  document it is given exactly once.
- **Mongoose modified path on a new document**: `defaultStatusModified`
  says whether Mongoose counts the defaulted `status` of a new document as
  modified.
- **New ids**: `newId`.
- **Uploads**: `uploadError`, the error multer reports for the request's
  multipart body, if any.

Prices and amounts are integers (cents). Rating values and the average are
`real`, and `Math.round` is rounding half up.

Behaviour of the code worth noting:

- An order with an empty `items` array is accepted, with a total of 0.
- Repeating a menu id in one order is refused as "One or more menu items not
  found". The `$in` lookup returns each document once.
- `updateOrder` goes through `findByIdAndUpdate`, so no save hook runs. The
  total is not recomputed when items change, and no history entry is added.
- The `updateOrder` patch may also rewrite `status`, `user` and
  `orderHistory` while the order is pending.
- Setting the current status again is not a modification, so it adds no
  history entry.
- Any of the seven statuses may follow any other. No transition graph is
  enforced.
- Ratings are range-checked but need not be whole numbers.

## Model

| member | source | states |
|---|---|---|
| OrderModel.ParseStatus | Backend/models/Order.js:33-37 | a status string is accepted exactly when it is the name of one of the seven statuses; the same `Status` type serves the order and every history entry |
| OrderModel.ParseOrderType | Backend/models/Order.js:48-52 | an order type string is accepted exactly when it is dine-in, takeaway or delivery |
| OrderModel.ItemsTotalNonNegative | Backend/models/Order.js:93-96 | with non-negative prices and quantities of at least 1, Σ price × quantity is non-negative |
| OrderModel.ItemsTotalAppend | Backend/models/Order.js:93-96 | the reduce adds exactly price × quantity for each further line |
| OrderModel.ItemsTotal | Backend/models/Order.js:93-96 | the `reduce` of price × quantity over the lines, by definition; its properties are `ItemsTotalNonNegative` and `ItemsTotalAppend` |
| OrderModel.SaveEnforcesBounds | Backend/models/Order.js:17-32 | a save succeeds exactly when every quantity is at least 1, the table number (if any) at least 1 and the total at least 0; otherwise it is a 500 |
| OrderModel.SaveHistory | Backend/models/Order.js:79-88 | a save keeps every earlier history entry and appends exactly one entry `{status, 'Order status changed to <status>'}` when status was modified, none otherwise |
| OrderModel.SaveTotal | Backend/models/Order.js:91-99 | with items, the saved total is Σ price × quantity; without items the total is left as is; no other field but total and history changes |
| OrderModel.SaveKeepsConsistentTotal | Backend/models/Order.js:91-99 | a total that equals Σ price × quantity still does after a save |
| OrderModel.Saved | Backend/models/Order.js:17-99 | validation of the schema's bounds, then the history hook, then the total hook, by definition; what it does is stated by `SaveEnforcesBounds`, `SaveHistory` and `SaveTotal` |
| OrderModel.OrderDocument.Hydrate | Backend/controllers/order.controller.js:227 | a loaded document holds the stored order with nothing modified |
| OrderModel.OrderDocument.Build | Backend/controllers/order.controller.js:137-146 | a new document holds the given order; whether `status` counts as modified is the ORM's choice |
| OrderModel.OrderDocument.SetStatus | Backend/models/Order.js:80 | assigning the status marks it modified exactly when the value differs from the current one |
| OrderModel.OrderDocument.SetDeliveredAt | Backend/controllers/order.controller.js:237-239 | sets `deliveredAt` and nothing else |
| OrderModel.OrderDocument.AppendStatusHistory | Backend/models/Order.js:79-88 | the history hook pushes in place exactly as `RecordStatusChange` describes |
| OrderModel.OrderDocument.RecalculateTotal | Backend/models/Order.js:91-99 | the total hook assigns in place exactly as `RecomputeTotal` describes |
| OrderModel.OrderDocument.Save | Backend/models/Order.js:79-99 | saving yields `Saved` of the document before the call; on success the document holds the result and is clean, on failure it is unchanged |
| MenuItemModel.ParseCategory | Backend/models/MenuItem.js:25-29 | a category string is accepted exactly when it names one of the six categories |
| MenuItemModel.SaveEnforcesSchema | Backend/models/MenuItem.js:4-29 | a save succeeds exactly when the name is non-empty and at most 100 UTF-16 code units long, the description non-empty and at most 500, the price non-negative and every rating in [1, 5]; a refusal is a 500; a success changes only the average |
| MenuItemModel.Saved | Backend/models/MenuItem.js:94-97 | schema validation, then the pre-save recomputation of the average, by definition; stated by `SaveEnforcesSchema` |
| Strings.Utf16Length | Backend/models/MenuItem.js:8-14 | the length `maxlength` compares is at least the number of characters and at most twice it, and equals it exactly when every character lies in the basic plane |
| MenuItemModel.RoundHalfUp | Backend/models/MenuItem.js:90 | `Math.round` gives the integer within half of its argument, halves going up |
| MenuItemModel.AverageIsRoundedMean | Backend/models/MenuItem.js:89-90 | with ratings, the average is a whole number of tenths within 0.05 of the mean |
| MenuItemModel.AverageRating | Backend/models/MenuItem.js:83-91 | 0 without ratings, otherwise `Math.round(mean × 10) / 10`, by definition; stated by `AverageIsRoundedMean` and `AverageInRange` |
| MenuItemModel.RatingSumBounds | Backend/models/MenuItem.js:63-67 | with every value in [1, 5], the sum lies between n and 5n |
| MenuItemModel.AverageInRange | Backend/models/MenuItem.js:89-90 | with every value in [1, 5], the average lies in [1, 5] |
| MenuItemModel.RatingSumAppend | Backend/models/MenuItem.js:89 | pushing a rating adds its value to the sum |
| MenuItemModel.RatingSumOverwrite | Backend/models/MenuItem.js:89 | overwriting a rating replaces its value in the sum |
| MenuItemModel.RecomputeIdempotent | Backend/models/MenuItem.js:94-97 | the average depends on the ratings alone: recomputing is idempotent and discards any stale value |
| MenuItemModel.MenuItemDocument.Hydrate | Backend/controllers/menu.controller.js:169 | a loaded document holds the stored item |
| MenuItemModel.MenuItemDocument.CalculateAverageRating | Backend/models/MenuItem.js:83-91 | assigns 0 without ratings and the rounded mean otherwise, changing nothing else |
| MenuItemModel.MenuItemDocument.OverwriteRating | Backend/controllers/menu.controller.js:189-191 | the three assignments overwrite value, review and date of entry k, changing nothing else |
| MenuItemModel.MenuItemDocument.PushRating | Backend/controllers/menu.controller.js:194-199 | pushes one rating at the end |
| MenuItemModel.MenuItemDocument.Save | Backend/models/MenuItem.js:94-97 | validates, then recomputes the average; on failure the document is unchanged |
| Strings.Split | Backend/middleware/auth.js:15 | `split(' ')` yields at least one field and no field holds the separator |
| Strings.JoinOfSplit | Backend/controllers/order.controller.js:43 | `split(',').join(' ')` replaces every comma with a space |
| Strings.SplitAfterPrefix | Backend/middleware/auth.js:15 | splitting `a + sep + b`, with no separator in `a`, yields `a` and then the fields of `b` |
| Listing.Skip | Backend/controllers/order.controller.js:32-33 | the skip is `(page - 1) * limit`: skip plus limit is page × limit, and the skip is negative exactly for a page before 1 under a positive limit or after 1 under a negative one |
| Listing.Paginate | Backend/controllers/order.controller.js:36-39 | the window is the slice starting at skip, at most `limit` long (0 means no limit), reaching the end when the limit allows; empty past the end |
| Listing.Fetch | Backend/controllers/order.controller.js:36-48 | the database refuses a negative skip with a 500; otherwise it returns the window, at most `-limit` documents for a negative limit |
| Listing.Respond | Backend/controllers/order.controller.js:11-58 | without `limit` and `page` the response is page 1 with limit 10 and the first ten sorted documents; otherwise the window at `(page - 1) * limit`, a 500 exactly when that skip is negative; every listed id is selected, none repeats, the count is at most the total, and the total counts every selected document |
| Listing.PagesTile | Backend/controllers/order.controller.js:32-39 | over one fixed ordering of the results, pages 1..k together are exactly its first k × limit elements: no overlaps and no gaps |
| Listing.SortSpecRewritesCommas | Backend/controllers/order.controller.js:42-47 | a given sort string reaches the database with commas turned into spaces; otherwise the default order is used |
| Auth.BearerHeaderWins | Backend/middleware/auth.js:10-15 | with `Authorization: Bearer <token>` the token is used whatever the cookie holds |
| Auth.TokenFrom | Backend/middleware/auth.js:10-19 | the token `protect` reads, by definition; stated by `BearerHeaderWins`, `BareBearerIgnoresCookie` and `CookieFallback` |
| Auth.BareBearerIgnoresCookie | Backend/middleware/auth.js:10-15 | a header starting with "Bearer" but with no second field gives no token, and the cookie is not consulted |
| Auth.CookieFallback | Backend/middleware/auth.js:16-19 | without a Bearer header the cookie token is used when non-empty |
| Auth.Protect | Backend/middleware/auth.js:6-41 | 401 exactly when there is no token or verification fails; 404 exactly when the verified id has no user; otherwise the caller is that user |
| Auth.Authorize | Backend/middleware/auth.js:44-56 | 401 without a caller, 403 naming the role when it is not listed, and the caller exactly when the role is listed |
| Routing.FirstHandler | Backend/routes/order.routes.js:28-45 | the found route handles the request and no earlier route does; none found means no route handles it |
| Routing.FirstHandlerIs | Backend/routes/order.routes.js:28-45 | the first route in registration order that handles a request is the one dispatched to |
| Routing.PathMatches | Backend/routes/order.routes.js:28-45 | Express's default matching, by definition: literal segments in any case, parameters non-empty, one trailing slash ignored; stated by `OrderRoutes.MyOrdersAnyCase` and the route lemmas |
| Routing.Dispatch | Backend/routes/order.routes.js:28-45 | Express's dispatch, by definition: the first matching route's stages run, 404 when none matches; stated by `FirstHandlerIs` and the route lemmas |
| Routing.RunStages | Backend/routes/order.routes.js:30-45 | a route's middleware in order, the first error stopping the request, by definition; stated by `ProtectOnly`, `ProtectThenAuthorize` and `PassThrough` |
| Routing.ProtectOnly | Backend/routes/order.routes.js:33-35 | a route behind `protect` alone admits exactly the authenticated callers, whatever the upload |
| Routing.ProtectThenAuthorize | Backend/routes/menu.routes.js:31-36 | a route behind `protect` and `authorize(roles)`, then validators and perhaps the upload parser: 401 or 404 from `protect`, 403 naming a role that is not listed, 500 when multer reports an error, and the caller exactly when the role is listed and the upload, if any, succeeds |
| Routing.PassThrough | Backend/routes/menu.routes.js:31-36 | validator chains never stop a request; the upload parser stops it with a 500 exactly when multer reports an error |
| OrderRoutes.MenuItemErrorsEmpty | Backend/routes/order.routes.js:22 | no "Menu item ID is required" message exactly when every line names a menu item |
| OrderRoutes.QuantityErrorsEmpty | Backend/routes/order.routes.js:23 | no quantity message exactly when every quantity is an integer of at least 1 |
| OrderRoutes.OrderValidationAccepts | Backend/routes/order.routes.js:20-25 | the chain reports nothing exactly when items is an array of lines with a menu item and a quantity ≥ 1 and the order type is one of three |
| OrderRoutes.EmptyItemsAccepted | Backend/routes/order.routes.js:21 | an empty items array passes the chain |
| OrderRoutes.OrderValidation | Backend/routes/order.routes.js:20-25 | the messages of the chain in order, by definition; stated by `OrderValidationAccepts` and `EmptyItemsAccepted` |
| OrderRoutes.StaffRoutes | Backend/routes/order.routes.js:28-45 | listing all orders and changing a status admit exactly admin and staff; deleting admits exactly admin |
| OrderRoutes.AuthenticatedRoutes | Backend/routes/order.routes.js:31-40 | creating, `myorders`, reading (for an id that is not `myorders` in any case) and updating one order admit every authenticated caller and refuse everyone else with the authentication error |
| OrderRoutes.MyOrdersBeforeId | Backend/routes/order.routes.js:33-41 | GET /myorders reaches `getMyOrders`, not `getOrder`; PUT /myorders still reaches `updateOrder` |
| OrderRoutes.MyOrdersAnyCase | Backend/routes/order.routes.js:33-35 | `/myorders` in any letter case, with or without one trailing slash, reaches `getMyOrders` |
| MenuRoutes.MenuValidationAccepts | Backend/routes/menu.routes.js:20-25 | the chain reports nothing exactly when name and description are non-empty, the price is numeric and the category is one of six |
| MenuRoutes.MenuValidation | Backend/routes/menu.routes.js:20-25 | the chain's messages in order, by definition; stated by `MenuValidationAccepts` |
| MenuRoutes.IsNumeric | Backend/routes/menu.routes.js:23 | validator.js's `isNumeric` pattern, by definition; stated by `NumericForms` and `NumericExamples` |
| MenuRoutes.NumericForms | Backend/routes/menu.routes.js:23 | for any digit strings, an optional sign then digits, or digits, a point and at least one digit, is numeric; the same with a trailing point is not |
| MenuRoutes.NumericExamples | Backend/routes/menu.routes.js:23 | "12", "-3.50" and ".5" are numeric; "", "5.", "1.2.3" and "1e3" are not |
| MenuRoutes.PublicRoutes | Backend/routes/menu.routes.js:28-35 | listing and reading menu items need no caller at all |
| MenuRoutes.StaffRoutes | Backend/routes/menu.routes.js:31-37 | creating and updating admit exactly admin and staff whose multipart body multer accepts, and answer 500 with multer's message otherwise; deleting admits exactly admin; only creating runs the validator chain |
| MenuRoutes.RateRoute | Backend/routes/menu.routes.js:39 | rating admits exactly the authenticated callers |
| OrderController.MenuItemIds | Backend/controllers/order.controller.js:106 | the ids are the requested lines' menu items, in order |
| OrderController.FoundAllIff | Backend/controllers/order.controller.js:106-111 | the count of distinct catalog matches equals the count of lines exactly when every id is known and none repeats |
| OrderController.FirstUnavailable | Backend/controllers/order.controller.js:117-122 | the first line, in request order, whose item is unavailable; none when all are available |
| OrderController.Snapshot | Backend/controllers/order.controller.js:124-130 | one line per request line with the catalog's name and price, by definition; stated by `BuildOrderLines` and `CreateOrderSnapshots` |
| OrderController.BuildOrderLines | Backend/controllers/order.controller.js:114-134 | the loop fails exactly when some line is unavailable, naming the first such item; otherwise it yields the snapshot lines and their Σ price × quantity |
| OrderController.CreateOrder | Backend/controllers/order.controller.js:95-155 | the result is `CreateOrderOutcome` on the catalog; a created order is stored under the new id and nothing else changes |
| OrderController.CreateOrderOutcome | Backend/controllers/order.controller.js:95-155 | the decision of `createOrder`, by definition; stated by `CreateOrderDecision`, `CreateOrderSnapshots`, `CreateOrderTotal`, `CreateOrderInitialState` and `CreateOrderSucceeds` |
| OrderController.CreateOrderDecision | Backend/controllers/order.controller.js:98-122 | validation errors first, then "One or more menu items not found" exactly when an id is unknown or repeated, then the first unavailable line, and only then the save |
| OrderController.CreateOrderSnapshots | Backend/controllers/order.controller.js:124-130 | each created line copies name and price from the catalog and quantity from the request, with '' for a missing note; every line's item was available |
| OrderController.CreateOrderTotal | Backend/controllers/order.controller.js:114-140 | a created order's total is Σ price × quantity of its lines, hence 0 for no lines |
| OrderController.CreateOrderInitialState | Backend/controllers/order.controller.js:137-146 | status pending, payment 'not paid'/'pending', table number only for dine-in, address only for delivery, history `[{pending, 'Order created'}]` (plus the hook's entry if the ORM marks the default) |
| OrderController.CreateOrderSucceeds | Backend/controllers/order.controller.js:137-146 | a well-formed request on available items with non-negative prices is saved, except that a dine-in table number below 1 is refused by the schema with a 500 |
| OrderController.GetOrder | Backend/controllers/order.controller.js:74-81 | 404 exactly when the id is absent, 403 exactly when the caller is neither admin, staff nor owner, the order otherwise (owner compared by id) |
| OrderController.PopulatedOwnerRefused | Backend/controllers/order.controller.js:72-81 | as written, a customer reading their own order gets 403 (an error if the owner's user is gone), while `GetOrder` returns the order |
| OrderController.GetOrderAsWritten | Backend/controllers/order.controller.js:70-90 | as written: 404 exactly for an absent id, the order for admin and staff, a 500 for a customer when the owner's user is gone, and only the stored order on success |
| OrderController.InspectString | Backend/controllers/order.controller.js:79 | the string of a populated user document opens with a brace |
| OrderController.MyOrders | Backend/controllers/order.controller.js:257 | exactly the orders whose owner is the caller |
| OrderController.MyOrdersReadable | Backend/controllers/order.controller.js:255-263 | every order in one's own list passes the corrected `GetOrder`; as written (`GetOrderAsWritten`, see Findings) a customer is refused their own order |
| OrderController.UpdateOrder | Backend/controllers/order.controller.js:160-191 | the result is `UpdateOrderOutcome`; an accepted patch replaces the stored order and nothing else changes |
| OrderController.UpdateOrderOutcome | Backend/controllers/order.controller.js:160-191 | the decision of `updateOrder`, by definition; stated by `UpdateOrderDecision` and `UpdateOrderRunsNoHooks` |
| OrderController.ApplyPatch | Backend/controllers/order.controller.js:179-182 | `findByIdAndUpdate` with `new: true`: each field the patch sends replaces the stored one, by definition; stated by `UpdateOrderRunsNoHooks` |
| OrderController.PatchValid | Backend/controllers/order.controller.js:179-182 | `runValidators: true` on the patched numeric paths, by definition; stated by `UpdateOrderDecision` |
| OrderController.UpdateOrderDecision | Backend/controllers/order.controller.js:164-182 | 404, then 403 for a caller who is not owner/staff/admin, then 400 for a non-pending order; success exactly when all pass and the patched paths validate |
| OrderController.UpdateOrderRunsNoHooks | Backend/controllers/order.controller.js:179-182 | the history and total are the stored ones unless the patch sets them, whatever it does to the items |
| OrderController.UpdateOrderLeavesTotalStale | Backend/controllers/order.controller.js:179-182 | replacing the items of a pending order leaves a total that is no longer Σ price × quantity |
| OrderController.DeleteOrder | Backend/controllers/order.controller.js:196-213 | 404 exactly when the id is absent; otherwise exactly that order is removed |
| OrderController.UpdateOrderStatus | Backend/controllers/order.controller.js:218-250 | load, assign the status, stamp `deliveredAt` for delivered, save: the result is `UpdateOrderStatusOutcome`, stored on success |
| OrderController.UpdateOrderStatusOutcome | Backend/controllers/order.controller.js:218-250 | the decision of `updateOrderStatus`, by definition; stated by `StatusCheckedBeforeLookup` and `StatusChangeEffect` |
| OrderController.WithStatus | Backend/controllers/order.controller.js:233-241 | assign the status, stamp `deliveredAt` for delivered, save, by definition; stated by `StatusChangeEffect` and `HistoryOnlyGrows` |
| OrderController.StatusCheckedBeforeLookup | Backend/controllers/order.controller.js:222-231 | 400 exactly for a missing or non-enum status, whether or not the order exists; 404 exactly for a valid status and an absent order |
| OrderController.StatusChangeEffect | Backend/controllers/order.controller.js:233-241 | on a valid order the save succeeds, sets the status, stamps `deliveredAt` iff delivered, appends one entry iff the status differs, and keeps items and earlier entries |
| OrderController.HistoryOnlyGrows | Backend/models/Order.js:79-88 | through any run of status changes the history keeps its earlier entries and grows by exactly the number of real changes |
| OrderController.BuildOrderQuery | Backend/controllers/order.controller.js:13-29 | each filter field is present exactly when its query parameter is non-empty, with that value |
| OrderController.OrderFilterSelection | Backend/controllers/order.controller.js:14-36 | no filter selects every order; a status filter selects exactly the orders with that status, or none for a string that names no status |
| OrderController.GetOrders | Backend/controllers/order.controller.js:9-65 | each filter is present exactly when its query value is truthy; the listing is `Respond` over the matching orders in the engine's order: without `limit` and `page`, page 1 with limit 10; every listed id matches the filter; the count is at most the total, which counts every match |
| OrderController.Scenario | Backend/controllers/order.controller.js:95-146 | A × 2 at 10 plus B × 1 at 5 give 25, pending, one history entry; confirming adds a second entry and the snapshot total stays 25 |
| MenuController.IndexOfRater | Backend/controllers/menu.controller.js:183-185 | the first entry by the caller, or -1 when there is none |
| MenuController.RateMenuItem | Backend/controllers/menu.controller.js:167-213 | load, overwrite or push, recompute, save: the result is `RateOutcome`, stored on success |
| MenuController.RateOutcome | Backend/controllers/menu.controller.js:167-213 | the decision of `rateMenuItem`, by definition; stated by `RateDecision` and `RateSucceeds` |
| MenuController.Upsert | Backend/controllers/menu.controller.js:183-200 | `findIndex`, then overwrite in place or push, by definition; stated by `UpsertOverwritesOrAppends`, `UpsertLeavesOthers`, `UpsertKeepsOnePerUser` and `UpsertKeepsRange` |
| MenuController.RateDecision | Backend/controllers/menu.controller.js:169-180 | 404 exactly for an unknown item, 400 exactly for a missing or out-of-range rating on a known one, success exactly when the item then validates |
| MenuController.RateSucceeds | Backend/controllers/menu.controller.js:178-204 | any rating in [1, 5], whole or not, on a valid item is saved with the upserted ratings, a '' review by default, and their recomputed average, which lies in [1, 5] |
| MenuController.UpsertOverwritesOrAppends | Backend/controllers/menu.controller.js:183-200 | a repeat rater's first entry is overwritten in place with length unchanged; a new rater's entry is appended, length + 1 |
| MenuController.UpsertLeavesOthers | Backend/controllers/menu.controller.js:183-200 | every other user's entry stays where and as it was, and the caller's rating is present |
| MenuController.UpsertKeepsOnePerUser | Backend/controllers/menu.controller.js:183-200 | at most one rating per user is preserved |
| MenuController.UpsertKeepsRange | Backend/controllers/menu.controller.js:178-200 | ratings stay in [1, 5] when the new one is |
| MenuController.UpsertAverage | Backend/controllers/menu.controller.js:187-203 | a new rater's average is round(10 × (sum + v) / (n + 1)) / 10; a repeat rater's old value is replaced in the sum |
| MenuController.BuildMenuQuery | Backend/controllers/menu.controller.js:13-28 | each filter field is present exactly when its query parameter is non-empty; the flags are true exactly for 'true' |
| MenuController.MenuFilterSelection | Backend/controllers/menu.controller.js:16-28 | no filter selects the whole menu; `isAvailable` selects the available items for 'true' and the unavailable ones for anything else |
| MenuController.GetMenuItems | Backend/controllers/menu.controller.js:8-63 | each filter is present exactly when its query value is truthy, the flags true exactly for 'true'; the listing is `Respond` over the matching items in the engine's order (by name by default): without `limit` and `page`, page 1 with limit 10; every listed id matches; the count is at most the total |
| UserController.GetUsers | Backend/controllers/user.controller.js:7-19 | one view per user, carrying every field but the password |
| UserController.GetUser | Backend/controllers/user.controller.js:24-39 | 404 exactly when the id is absent, otherwise the user's name, email, role and avatar, without the password |
| UserController.ReadsHidePasswords | Backend/controllers/user.controller.js:9-26 | changing any stored password changes nothing either read returns |
| UserController.CreateUser | Backend/controllers/user.controller.js:44-69 | the result is `CreateUserOutcome`; a created user is stored under the new id and nothing else changes |
| UserController.CreateUserOutcome | Backend/controllers/user.controller.js:44-69 | the decision of `createUser`, by definition; stated by `CreateUserDecision` and `CreateUserKeepsEmailsUnique` |
| UserController.CreateUserDecision | Backend/controllers/user.controller.js:49-60 | 400 exactly when the email is taken; otherwise the user has the given name and email and the role 'customer' by default |
| UserController.CreateUserKeepsEmailsUnique | Backend/controllers/user.controller.js:49-60 | creation keeps emails unique across the table |
| UserController.EditedBody | Backend/controllers/user.controller.js:82-90 | an upload sets the avatar to '/uploads/<file>', a truthy password is removed, the rest of the body is kept |
| UserController.UpdateUser | Backend/controllers/user.controller.js:74-104 | the result is `UpdateUserOutcome`; on success only that user changes |
| UserController.UpdateUserOutcome | Backend/controllers/user.controller.js:74-104 | the decision of `updateUser`, by definition; stated by `UpdateUserKeepsPassword` |
| UserController.UpdateUserKeepsPassword | Backend/controllers/user.controller.js:78-95 | 404 exactly for an absent user; otherwise the stored password is unchanged unless the body sends an empty password |
| UserController.UpdateUserRole | Backend/controllers/user.controller.js:131-156 | the result is `UpdateUserRoleOutcome`; on success only that user's role changes |
| UserController.UpdateUserRoleOutcome | Backend/controllers/user.controller.js:131-156 | the decision of `updateUserRole`, by definition; stated by `UpdateUserRoleDecision` |
| UserController.UpdateUserRoleDecision | Backend/controllers/user.controller.js:136-147 | 400 exactly for a role other than customer, staff or admin, before the lookup; 404 exactly for a valid role and an absent user; success changes only the role |
| UserController.DeleteUser | Backend/controllers/user.controller.js:109-126 | 404 exactly when the id is absent; otherwise exactly that user is removed |

## Left out

- I/O and wiring: the server setup, the rate limiter, the database connection,
  the SMTP helper and the frontend are not part of this model.
- Database round trips: `populate`, `exec` and `countDocuments` are replaced
  by reads of the maps.
- Sorting: `sortEngine` is an abstract parameter, and only the
  `split(',').join(' ')` rewrite of the sort string is modelled.
  `OrderController.GetOrders` and `MenuController.GetMenuItems` require that it
  returns each document it is given exactly once. The order it produces is
  not modelled.
- `Listing.PagesTile` assumes one total order that is the same for every
  query. The default sorts `-createdAt` and `name` leave ties, which
  MongoDB may break differently from one page's query to the next. Pages of
  the source can then overlap or miss documents.
- Query parameters are taken as single strings. Express's query parser turns
  repeated or bracketed parameters into arrays or objects, and the source then
  behaves differently:
  - a repeated `status` is cast by Mongoose to `$in` and selects each listed
    value;
  - a repeated `sort` makes `sort.split` throw, which gives 500;
  - a repeated `isAvailable` or `isVegetarian` is truthy but never
    `=== 'true'`, so it selects the `false` items.
- File uploads: `Backend/middleware/upload.js` is not part of this model.
  Whether multer reports an error for a request is the `uploadError`
  parameter of `Routing.RunStages`, and its message is taken as given. The
  avatar upload of `PUT /api/users/:id` sits behind the admin gate, and like
  that gate it is not dispatched in this model.
- Timestamps: the schemas' `createdAt` and `updatedAt` are not modelled, so
  neither is the order they give `getMyOrders`.
- `estimatedDeliveryTime` is never set by the controllers and is not modelled.
- The user schema, including password hashing and its validators, is not part
  of this model. A user's `role` and `email` are stored as given.
- `UserController.UpdateUserKeepsPassword`: an empty password in the update
  body is not removed, and its fate then depends on the user schema, which is
  not modelled.
- Menu item administration: `getMenuItem`, `createMenuItem`,
  `updateMenuItem` and `deleteMenuItem` are CRUD calls with no domain rule.
  Only their route gates and the create validator chain are modelled.
- Authentication routes: `/api/auth` validates input for controllers that
  are not part of this model.
- The admin gate of `/api/users` is taken as the methods' precondition
  `caller.role == AdminRole`.
- Casting: ObjectId cast errors are not modelled, and ids are plain strings.
  In the source, a malformed id in a controller's lookup gives 500 rather than
  404. A malformed id in a token is caught by `protect` and gives 401.
- Request parsing: `parseInt` of `page` and `limit` is taken as already
  done, so a value that parses to NaN is not modelled. The defaults, 0 and
  negative values are modelled.
- MongoDB's error text for a negative skip is shortened to its first words.
- Quantities: the string forms accepted by `isInt` are taken as already
  parsed, and a non-integer quantity reads as absent.
- Ratings: a rating that is not a number, such as a string compared with
  `<`, is not modelled.
- Trimming: names and descriptions are taken as already trimmed.
- Update validators: `OrderController.PatchValid` checks only the numeric
  bounds of the patched paths; enum values in a patch are taken as already
  cast.
- Floating point: prices are integers and ratings are exact reals, so
  JavaScript's binary rounding is not modelled.
- Concurrency: racing read-modify-write sequences are not modelled; each
  request runs alone.

## Findings

| source | as written | input that shows it | evidently intended | confidence | as-written member | corrected member |
|---|---|---|---|---|---|---|
| Backend/controllers/order.controller.js:72-81 | the order is loaded with `populate('user', 'name email')`, so `order.user.toString()` is the text of the user document rather than its id | a customer with id `u1` requests `GET /api/orders/<id>` for an order whose owner is `u1`: the comparison fails and the response is 403; if `u1`'s user record was deleted, `order.user` is null and the call fails with 500 | compare the owner's id (`order.user._id`) with the caller's id, so the owner can read their own order | medium (not executed) | OrderController.PopulatedOwnerRefused | OrderController.GetOrder |
