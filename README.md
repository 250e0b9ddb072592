# plantNet storefront: server store and purchase modal in Dafny

This project models the two pieces of plantNet that have state and rules.

The first is the Express server's handling of its three MongoDB collections:
users, plants and orders. It covers the `verifyToken` gate, the user upsert,
the plant and order inserts, the GET routes, the signed stock adjustment, the
per-customer order listing (an aggregation that filters, joins and projects)
and the guarded order delete.

The second is the React purchase modal. It covers the component state
`totalQuantity`, `totalPrice` and `purchaseInfo`, the quantity and address
inputs that change it, and `handelPurchase`, which posts the order and then
asks the server to decrement the plant's stock.

The model reproduces what the code does, gaps included. Stock can go negative.
The upsert looks users up by the path's email but stores the body's email. So
when the two differ and no user has the path's email, every call inserts another
user. After a
rejected quantity input, the order and the decrement can carry different
quantities. The two writes of a purchase are not atomic.

Files and modules:

- `records.dfy`, module `Records`: the documents (`User`, `Plant`, `Order`,
  `OrderView`) and an `Option`. Ids are naturals issued in increasing order,
  standing for ObjectIds. Ascending id is therefore insertion order, which is
  the order a collection scan returns.
- `store.dfy`, module `Store`: the database as a value `Db`. Every route
  handler is a function from the old `Db` (and the request) to the new `Db` and
  the reply. The module also holds the lemmas about these handlers.
- `backend.dfy`, module `Backend`: the class `Server`. Its fields are the three
  collections, and its methods update them in place. Each method is proved to
  produce exactly the state and reply of the matching `Store` function.
- `purchase_flow.dfy`, module `PurchaseFlow`: the modal state as a `Draft`
  value, with its edit functions and lemmas. It also holds the class
  `PurchaseModal`, whose methods are proved against those functions; the
  function `Checkout`, which composes the two server calls; and two end-to-end
  runs over real `Server` and `PurchaseModal` objects.

Parameters stand in for what the code gets from outside:

- The JWT check (`jwt.verify` with the server secret) is a parameter
  `verify: string -> Option<Identity>`.
- The `token` cookie is an `Option<string>`. An empty string is rejected like a
  missing one, because the gate tests `!token`.
- `Date.now()` is a parameter `now`.
- Whether each of the modal's two requests reaches the server is a boolean
  parameter.
- Prices are integers (cents).

## Model

| member | source | states |
|---|---|---|
| `Store.VerifyToken` | server/index.js:25-39 | An absent or empty token is rejected before `verify` is consulted. Otherwise the request proceeds exactly when `verify` accepts the token, with the identity `verify` decodes. |
| `Store.UnauthorizedChangesNothing` | server/index.js:25-30 | Without an accepted token, every protected route (POST /plants, POST /orders, PATCH quantity, GET /orders/:email, DELETE /orders/:id) replies 401 and leaves every collection unchanged. |
| `Store.FirstUser` | server/index.js:92-93 | `findOne({ email })`: the result is a stored user with that email, and no user before it in natural order has that email. When there is none, no stored user below `nextId` has that email. |
| `Store.FindUser` | server/index.js:92-93 | The lookup returns a stored user with that email. In a valid database, when it finds none, no stored user has that email. |
| `Store.FindUserFindsFirst` | server/index.js:92-93 | In a valid database, if a user has the email, the lookup finds one no later than it in natural order, and no earlier user has that email. |
| `Store.NewUser` | server/index.js:98-102 | The inserted document keeps the body's name, email and image, with role "customer" and the given time stamp. |
| `Store.SaveUser` | server/index.js:88-104 | The upsert replies with an existing user exactly when the lookup by the path's email finds one, and then changes nothing. Otherwise it inserts the new user under `nextId` and replies with that id. Plants and orders never change, and ids stay below `nextId`. |
| `Store.SaveUserExisting` | server/index.js:92-96 | When a user with the path's email exists, the upsert replies with the first such user and changes nothing. |
| `Store.SaveUserForcesCustomer` | server/index.js:98-102 | A newly inserted user has role "customer" whatever role the body sent. It gets the time stamp and a fresh id, and no other collection changes. |
| `Store.SaveUserIdempotent` | server/index.js:88-104 | If the body's email is the path's email, a second upsert (with any body, at any time) changes nothing and replies with the existing user. |
| `Store.SaveUserMismatchNotIdempotent` | server/index.js:89-102 | If the body's email differs from the path's and no stored user has the path's email, two upserts insert two users: the lookup uses the path and the insert uses the body. |
| `Backend.Server.SaveUser` | server/index.js:88-104 | The in-place upsert keeps ids below `nextId` and yields exactly `Store.SaveUser`'s state and reply. |
| `Store.PostPlant` | server/index.js:107-111 | The reply is a new id exactly when the token is accepted; otherwise it is 401 and nothing changes. The plant is stored under `nextId`, which was not in use in a valid database. Users and orders never change. |
| `Backend.Server.PostPlant` | server/index.js:107-111 | Behind the gate, the posted plant is inserted under a fresh id, and that id is the reply. |
| `Store.Ascending` | server/index.js:114-117 | The ids of a collection in ascending, strictly increasing order, each present in the collection. This is the natural order a scan returns. |
| `Store.AscendingComplete` | server/index.js:114-117 | Every stored id below `nextId` occurs in that scan. |
| `Store.GetPlants` | server/index.js:114-117 | GET /plants returns, position by position, the plant stored under each id of the natural-order scan, so only stored plants and each at most once. |
| `Store.GetPlantsComplete` | server/index.js:114-117 | In a valid database every stored plant is in the listing, at the position of its id in natural order. |
| `Backend.Server.GetPlants` | server/index.js:114-117 | The route changes nothing and returns `Store.GetPlants` of the current collections, so only stored plants. |
| `Store.GetPlant` | server/index.js:120-125 | GET /plant/:id finds a plant exactly when the id is stored, and then it is that plant. |
| `Backend.Server.GetPlant` | server/index.js:120-125 | The route changes nothing and returns `Store.GetPlant` of the current collections: a plant exactly when the id is stored. |
| `Store.PostOrder` | server/index.js:128-132 | The reply is a new id exactly when the token is accepted; otherwise it is 401 and nothing changes. The order is stored as posted under `nextId`, which was not in use in a valid database. Users and plants never change. |
| `Backend.Server.PostOrder` | server/index.js:128-132 | Behind the gate, the posted order is inserted as it is under a fresh id. Nothing checks its plant or its quantity. |
| `Store.Delta` | server/index.js:139-146 | The amount added is the requested quantity or its negation, and it is the quantity itself exactly when the status is "increase" (or the quantity is 0). |
| `Store.Inc` | server/index.js:147 | `$inc` changes only the quantity of the plant with that id, if there is one, and no key of the collection. |
| `Store.PatchQuantity` | server/index.js:135-149 | The reply is an update result exactly when the token is accepted; otherwise 401 and nothing changes. Only plants change, never their ids. The match count is 1 exactly when the plant exists, and the modified count is at most the match count. |
| `Store.QuantityAdjustment` | server/index.js:137-146 | With status "increase" the quantity becomes q + d. With any other status, or none, it becomes q - d. No other plant, field or collection changes. |
| `Store.DecreaseThenIncrease` | server/index.js:138-147 | Decreasing by d and then increasing by d gives back exactly the original database. |
| `Store.DecreaseIsNotClamped` | server/index.js:139-141 | Decreasing by more than the stock leaves a negative quantity, and the reply still reports the plant as matched. |
| `Backend.Server.PatchQuantity` | server/index.js:135-149 | The in-place `$inc` yields exactly `Store.PatchQuantity`'s state and update counts. |
| `Store.Join` | server/index.js:155-187 | Every row comes from an order of that customer whose plant exists. The row carries the stored order and that plant's name, category and image. Rows are in increasing id order. |
| `Store.Listing` | server/index.js:155-187 | The listing for an email holds only stored orders of that customer whose plant exists, each with its stored order, in strictly increasing id order. |
| `Store.ListedIdsMembers` | server/index.js:158-173 | An id is kept by the match-and-join exactly when it is among the scanned orders and its order is that customer's and its plant exists. |
| `Store.JoinShowsListed` | server/index.js:155-187 | The ids the join shows are exactly the ids it keeps. |
| `Store.ListingIsFilterAndJoin` | server/index.js:152-187 | The listing shows exactly the stored orders whose `customer.email` is the requested email and whose plant exists. Orders whose plant is gone are dropped. Each row has the plant's name, category and image, and rows are in natural order. |
| `Store.GetOrders` | server/index.js:152-192 | The reply is the listing exactly when the token is accepted, never a 409, and every row belongs to the requested email. |
| `Store.ListingIgnoresCaller` | server/index.js:152-154 | Any two accepted tokens, whatever identities they decode to, get the same listing for the same email. So a caller whose identity's email differs from the requested one still gets that email's listing. |
| `Backend.Server.GetOrders` | server/index.js:152-192 | The route changes nothing. It replies with the `Store` listing, so every row belongs to the requested email. |
| `Store.DeleteOrder` | server/index.js:195-206 | The reply is 401 exactly when the token is rejected, and 409 exactly when the order exists and is delivered; both change nothing. Otherwise the order is gone and the reply counts 1 exactly when it existed. Users, plants and `nextId` never change, and no order is added. |
| `Store.DeleteDeliveredConflicts` | server/index.js:199-203 | Deleting a delivered order replies 409 and changes nothing. |
| `Store.DeleteRemovesOnlyThatOrder` | server/index.js:197-205 | Any other delete removes exactly the order with that id (nothing for an absent id). The reply is the number removed, and nothing else changes. |
| `Backend.Server.DeleteOrder` | server/index.js:195-206 | The in-place guarded delete yields exactly `Store.DeleteOrder`'s state and reply. |
| `PurchaseFlow.Initial` | client/src/components/Modal/PurchaseModal.jsx:21-37 | On first render the displayed and posted quantities are both 1, and the price is consistent with the unit price. |
| `PurchaseFlow.InitialDraft` | client/src/components/Modal/PurchaseModal.jsx:21-37 | The initial order has status "pending", an empty address, quantity 1, the plant's unit price, the user as customer, the plant's id and the seller's email. Displayed and posted quantities agree. |
| `PurchaseFlow.PurchaseModal.constructor` | client/src/components/Modal/PurchaseModal.jsx:17-37 | The modal opens on the plant with the initial draft. |
| `PurchaseFlow.QuantityChanged` | client/src/components/Modal/PurchaseModal.jsx:40-54 | No toast is raised exactly when the value is from 0 to the stock, and then displayed and posted quantities both become the value. A raised toast leaves the price and the order untouched. A consistent price stays consistent. |
| `PurchaseFlow.QuantityInputCases` | client/src/components/Modal/PurchaseModal.jsx:40-54 | Above the stock, the displayed quantity is clamped to the stock and "exceeds" is raised. Below zero, it is reset to 1 and "less then 1" is raised. In both cases price and order are untouched. Otherwise (0 included) quantity and price are set in both places and nothing else changes. |
| `PurchaseFlow.PurchaseModal.HandelTotalQuantity` | client/src/components/Modal/PurchaseModal.jsx:40-54 | The setter changes the component state and raises the toast exactly as `QuantityChanged` says, against the plant's stock and price. |
| `PurchaseFlow.EditsKeepPriceConsistent` | client/src/components/Modal/PurchaseModal.jsx:41-53 | Over any sequence of inputs, the displayed price stays the order's price, and that stays quantity times unit price. |
| `PurchaseFlow.EditsBoundOrderQuantity` | client/src/components/Modal/PurchaseModal.jsx:41-53 | Over any sequence of inputs, the order's quantity stays as it was or is a value from 0 to the stock. |
| `PurchaseFlow.RejectedInputSplitsQuantities` | client/src/components/Modal/PurchaseModal.jsx:41-48 | A clamp or a reset changes only the displayed quantity. It then differs from the order's quantity exactly when the order held something other than the stock (after a clamp) or 1 (after a reset). |
| `PurchaseFlow.AddressChanged` | client/src/components/Modal/PurchaseModal.jsx:154-157 | Editing the address changes the order's address and nothing else. |
| `PurchaseFlow.PurchaseModal.SetAddress` | client/src/components/Modal/PurchaseModal.jsx:154-157 | The address input changes the state exactly as `AddressChanged` says. |
| `PurchaseFlow.Checkout` | client/src/components/Modal/PurchaseModal.jsx:56-72 | If the post does not reach the server, nothing changes and the purchase fails. Users and the set of plant ids never change. The orders are either unchanged or gain exactly the draft's order under `nextId`. A valid database stays valid. |
| `PurchaseFlow.CheckoutEffect` | client/src/components/Modal/PurchaseModal.jsx:56-64 | With an accepted token and both requests delivered, the posted order is stored under a fresh id. The plant's stock falls by `totalQuantity` (not by the order's quantity), and nothing else changes. |
| `PurchaseFlow.DecrementOnlyAfterOrder` | client/src/components/Modal/PurchaseModal.jsx:56-72 | The stock changes only if the order was stored first. Success requires both requests delivered and an accepted token. |
| `PurchaseFlow.CheckoutNotAtomic` | client/src/components/Modal/PurchaseModal.jsx:56-72 | If the decrement is lost after the order was stored, the order stays and the stock is unchanged. |
| `PurchaseFlow.PurchaseModal.HandelPurchase` | client/src/components/Modal/PurchaseModal.jsx:56-73 | The server ends in `Checkout`'s state and the result is `Checkout`'s. The draft is unchanged and the modal is closed on every path. |
| `PurchaseFlow.PurchaseExample` | client/src/components/Modal/PurchaseModal.jsx:40-73 | The plant has stock 5 at price 10 and the customer buys 2. The stock becomes 3 and the stored order has quantity 2 and price 20. |
| `PurchaseFlow.ClampedPurchase` | client/src/components/Modal/PurchaseModal.jsx:41-64 | With stock 5 the customer types 2, then 7. The input shows 5 but the order keeps quantity 2 and price 20. Buying stores that order and takes all 5 from the stock. |

## Left out

- Signing and verifying JWTs (RFC 7519), the `/jwt` and `/logout` routes, and the cookie's attributes: the signature check is foreign crypto and is a `verify` parameter, and the routes only set or clear a cookie.
- CORS, morgan, the Express app, the MongoDB connection and ping, `listen`, and the `/` greeting: I/O plumbing with no rule to state.
- `new ObjectId(id)` throwing on a malformed id, and `$toObjectId` failing on a malformed `plantId`: ids are one abstract type, so these error paths do not arise.
- Generic 500 replies when a storage call fails: a storage call never fails in the model.
- Concurrency between the order post and the decrement, and between competing buyers: the model is sequential. The non-atomicity is shown by a lost second request instead.
- Floating-point prices and `parseInt` returning NaN: prices are integer cents and the quantity input is an integer.
- `$inc` creating a missing `quantity` field, and a missing `quantityToUpdate` (which makes `-undefined`): plants always have a quantity and the amount is always an integer.
- A component first rendered before its `plant` prop has loaded keeps `undefined` in `purchaseInfo`: the model takes the plant as given when the modal is constructed.
- Toasts other than the two quantity errors, navigation, `refetch`, the loading spinner and all JSX rendering.
- axiosSecure's interceptors: any non-2xx reply is treated as a thrown error, as axios does by default.
- client/src/pages/Dashboard/Seller/AddPlant.jsx, client/src/components/Home/Plants.jsx and client/src/api/utils.js: form glue, a fetch with rendering, and a third-party image upload.
