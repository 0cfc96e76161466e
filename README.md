# Food-ordering backend: authorization and order lifecycle in Dafny

This project models the core of a small multi-tenant food-ordering backend
(an Express server over in-memory arrays). Users have a role (ADMIN, MANAGER,
MEMBER) and a country. They browse restaurants and menus of their own
country, create orders, and move orders through a lifecycle: CREATED to
PAID, or CREATED to CANCELLED.

Every data route first runs a permission guard; only `/api/me`, which
echoes the resolved user, has none. No resolved user gives 401. A role that
the static action table does not allow gives 403. Routes that
touch one restaurant or order then check jurisdiction: an ADMIN passes, and
anyone else must have the resource's country.

Files:

- `domain.dfy` (module `Domain`): the entities, the error taxonomy with its
  HTTP codes, and the two sequence operations the handlers use. `FirstIndex`
  is JavaScript's `find`: the first entry with a given key. `InCountry` is the
  country `filter`.
- `utils.dfy` (module `Utils`), for `backend/utils.js`: the action→roles
  table and `CheckPermission`, `FindUserById`, and the seed data.
- `server.dfy` (module `Server`), for `backend/server.js`:
  - the guard `RequirePermission`;
  - the read handlers as functions over sequences (`VisibleRestaurants`,
    `MenuOf`, `VisibleOrders`);
  - the order total;
  - the class `Store`, which owns `users`, `restaurants` and `orders`. The
    handlers that change data are its methods: `CreateOrder`, `Checkout`,
    `Cancel` and `UpdatePayment`.
  - `Store.Valid()` holds across all of them. It says that user ids are
    distinct and user countries non-empty. It also says that every order's
    total is the sum of its items, and that `paidWith` and `paidAt` are set
    exactly when the order is PAID.
  - `CreateOrder`, `Checkout` and `Cancel` also ensure
    `Evolves(old(orders), orders)`: orders are only appended, they keep their
    identity, items, total, creator and country, and an order that has left
    CREATED never changes again. `UpdatePayment` leaves the orders exactly as
    they were. The lifecycle guarantee comes from these ensures clauses;
    `EvolvesTransitive` and `TerminalStaysTerminal` only spell out what
    `Evolves` gives over a run of calls.
- `lifecycle.dfy` (module `Lifecycle`):
  - what a client can rely on across several calls: a second checkout fails,
    and a cancelled order cannot be paid;
  - concrete runs of the handlers on the seed data.

Modelling choices:

- The actor is `Option<User>`. `Store.Authenticate` models the identity
  middleware, which looks up the `x-user-id` header. The scenarios use the
  store's own user records as actors.
- The request object that `checkPermission` receives is a type parameter
  `Req`. Since nothing is known about its type, the decision cannot depend
  on it.
- Prices are whole cents. The seed's `320` is `32000` and its `9.0` is `900`.
- The client's `qty` is `Option<int>`. `qty || 1` charges one when `qty` is
  absent or `0`. Any other value, negative included, is charged as given.
- The create-order body is `restaurantId: Option<string>` and
  `items: Option<seq<LineItem>>`. The id is falsy when absent or `""`.
  `items` is `None` when the field is absent or not an array.
- The new order's id (`Math.random`) and the checkout time
  (`new Date().toISOString()`) are parameters.

Behaviour of the code worth knowing, which the model keeps as written:

- The restaurant listing (`backend/server.js:45-46`) filters only when the
  user's country is truthy. A non-ADMIN whose country is `""` would see every
  restaurant. `RestaurantScope` keeps this.
  `Store.Valid()` keeps user countries non-empty, which the seed guarantees
  and no handler changes. So for every stored user the listing is exactly the
  restaurants of their country (`Store.ListRestaurantsOfUser`). The order
  listing (`:125`) filters every non-ADMIN.
- A MEMBER's checkout is refused by the guard before the payment-method
  check. `place_order` is not allowed to members, so the member u4, who has
  no payment method, gets Forbidden rather than "no payment method on file"
  (`Lifecycle.MemberScenario`).
- Line-item quantities are not required to be at least 1. The code charges
  any non-zero `qty` as given.

## Model

| member | source | states |
|---|---|---|
| `Domain.HttpStatus` | backend/server.js:29-117 | Unauthenticated is 401, Forbidden 403, NotFound 404, and the three others 400, each in both directions |
| `Domain.FirstIndex` | backend/utils.js:63 | `find`: the index returned holds the key and no earlier entry does; None exactly when no entry has the key |
| `Domain.FirstIndexSameKeys` | backend/server.js:81 | the order lookup depends only on the ids, so two lists with the same ids find the same index |
| `Domain.FirstIndexAfterUpdate` | backend/server.js:92-94 | writing an order's fields in place does not change which order an id finds |
| `Domain.InCountry` | backend/server.js:46 | the country filter keeps exactly the entries of that country and never lengthens the list |
| `Domain.InCountryAppend` | backend/server.js:46 | the filter distributes over concatenation, so it keeps the original order |
| `Domain.InCountrySingle` | backend/server.js:46 | a one-entry list is kept or dropped according to its country |
| `Domain.InCountryKeepsAll` | backend/server.js:125 | a list entirely of the user's country is returned unchanged |
| `Utils.CheckPermission` | backend/utils.js:66-81 | an unknown action is denied; role by role, ADMIN may do all six actions, MANAGER all but `update_payment`, MEMBER only the view and create actions |
| `Utils.KnownActionDecision` | backend/utils.js:77-80 | for an action of the table, the decision is membership of the user's role in its list |
| `Utils.DecisionIgnoresRequest` | backend/utils.js:66-81 | two users with the same role get the same decision for an action, whatever requests are passed |
| `Utils.RoleTable` | backend/utils.js:69-74 | `update_payment` only for ADMIN; `place_order` and `cancel_order` for all but MEMBER; `view_restaurants`, `create_order`, `view_orders` for everyone |
| `Utils.FindUserById` | backend/utils.js:62-64 | a found user is in the list and has the id; nothing is found exactly when no user has it |
| `Utils.FindUserByIdUnique` | backend/utils.js:62-64 | with distinct ids the lookup returns the one user with that id |
| `Utils.SeedData` | backend/utils.js:1-60 | the seed has pairwise distinct user ids, non-empty user countries and no orders |
| `Server.RequirePermission` | backend/server.js:26-34 | no actor gives Unauthenticated; an actor the table denies gives Forbidden; otherwise the actor passes through |
| `Server.RestaurantScope` | backend/server.js:45 | the listing is unrestricted exactly for ADMIN or an empty country, and otherwise limited to the user's country |
| `Server.VisibleRestaurants` | backend/server.js:45-46 | all restaurants when unrestricted; otherwise exactly those of the user's country |
| `Server.MenuOf` | backend/server.js:52-57 | NotFound exactly when no restaurant has the id; Forbidden only for a non-ADMIN when the restaurant's country differs (the jurisdiction check `InJurisdiction`, shared with checkout and cancel); otherwise that restaurant's menu, unfiltered; ADMIN gets a menu for every existing id |
| `Server.VisibleOrders` | backend/server.js:125 | all orders for ADMIN; for others exactly the orders of their country |
| `Server.Quantity` | backend/server.js:70 | the `qty` default: an absent or zero quantity is charged as one, any other as given |
| `Server.SumPrepend` | backend/server.js:70 | the sum of a line item followed by others is its amount plus theirs |
| `Server.ReduceIsSum` | backend/server.js:70 | `Reduce`, the left fold that `items.reduce` runs, equals from any start the start plus Σ price × quantity |
| `Server.SumNonNegative` | backend/server.js:70 | with non-negative prices and quantities the total is non-negative |
| `Server.OrderTotal` | backend/server.js:70 | the total the handler computes is Σ price × quantity over the items |
| `Server.EvolvesReflexive` | backend/server.js:82-90 | leaving the orders untouched, as every error path does, keeps to the lifecycle |
| `Server.EvolvesByAppend` | backend/server.js:75 | appending an order keeps every existing order as it was |
| `Server.EvolvesByUpdate` | backend/server.js:92-105 | replacing one order by a permitted successor keeps to the lifecycle |
| `Server.EvolvesTransitive` | backend/server.js:86-105 | any run of handlers keeps to the lifecycle, since each step does |
| `Server.TerminalStaysTerminal` | backend/server.js:86-105 | a PAID or CANCELLED order keeps its status under any evolution, so it never returns to CREATED |
| `Server.Store.constructor` | backend/server.js:13 | the store starts from the seed data, with no orders, and is valid |
| `Server.Store.Authenticate` | backend/server.js:16-23 | the actor is the stored user with the header's id; none when the header is absent, empty or unknown |
| `Server.Store.ListRestaurants` | backend/server.js:43-48 | Unauthenticated exactly without an actor; every role may list; ADMIN and a user with an empty country get all restaurants, a non-ADMIN with a country exactly the country filter of the list, in order |
| `Server.Store.ListRestaurantsOfUser` | backend/server.js:45-46 | for any non-ADMIN user of a valid store, the listing is exactly the country filter of the restaurants, in order |
| `Server.Store.GetMenu` | backend/server.js:51-58 | Unauthenticated exactly without an actor; otherwise the menu lookup for that user |
| `Server.Store.ListOrders` | backend/server.js:123-127 | Unauthenticated exactly without an actor; ADMIN gets all orders, others exactly the country filter of the orders, in order, which holds precisely the orders of their country |
| `Server.Store.CreateOrder` | backend/server.js:61-77 | guard, then ValidationError when the body check `ValidOrderBody` (line 63) fails: the id absent or empty, or the items absent or not an array; on success exactly one CREATED order is appended, with the given id, items, total Σ price × quantity, creator and creator's country; the restaurant is not looked up; nothing changes on error |
| `Server.Store.Checkout` | backend/server.js:80-96 | members are Forbidden by the guard; then NotFound, Forbidden outside the jurisdiction (`InJurisdiction`, line 84), InvalidState unless CREATED, PaymentMethodMissing, in that order; on success only that order changes, becoming PAID with the first payment method and the given time; nothing changes on error |
| `Server.Store.MarkPaid` | backend/server.js:92-94 | the three in-place writes set status, `paidWith` and `paidAt` of one CREATED order and change nothing else |
| `Server.Store.Cancel` | backend/server.js:99-107 | members are Forbidden; then NotFound, Forbidden outside the jurisdiction (`InJurisdiction`, line 102), InvalidState on a PAID order (left PAID); otherwise the order becomes CANCELLED, and re-cancelling changes nothing |
| `Server.Store.MarkCancelled` | backend/server.js:105 | the in-place write makes one non-PAID order CANCELLED and changes nothing else |
| `Server.Store.UpdatePayment` | backend/server.js:110-120 | non-ADMINs are Forbidden before any lookup; NotFound for an unknown id; otherwise the target's list is replaced wholesale by the one given, or emptied, and every other user and all orders stay as they were |
| `Lifecycle.CheckoutTwice` | backend/server.js:80-96 | after a successful checkout a second checkout of the same id fails for anyone, with InvalidState for the same user, and the order keeps its first payment |
| `Lifecycle.CancelThenCheckout` | backend/server.js:80-107 | after a successful cancel the order is CANCELLED and any checkout of it fails |
| `Lifecycle.ManagerScenario` | backend/server.js:61-96 | on the seed, u2's order of 1 × 32000 + 2 × 6000 totals 44000 and is paid with pm2; u3 from America is then Forbidden and the order stays PAID |
| `Lifecycle.MemberScenario` | backend/server.js:61-90 | on the seed, member u4 creates an order, its checkout is Forbidden, and the order stays CREATED |
| `Lifecycle.ListingScenario` | backend/server.js:123-127 | on the seed, with an India and an America order, member u5 lists only the India order and the ADMIN u1 lists both |
| `Lifecycle.PaymentScenario` | backend/server.js:110-120 | on the seed, ADMIN u1 replaces u4's payment methods by exactly the given list; manager u2 trying the same is Forbidden |

## Left out

- The React front end. It only calls the routes and enforces nothing.
- Express, cors and body-parser wiring, `app.listen`, and the JSON response
  bodies. Handlers return an `Outcome`, and `HttpStatus` gives the code.
- The `/api/me` route (`backend/server.js:37-40`) only echoes the resolved
  user. `Store.Authenticate` is that resolution.
- `Math.random` order ids and the wall-clock `paidAt`. Both are parameters.
  Order ids are not required to be unique; as in the code, lookups use the
  first order with the id.
- Floating-point prices. Prices are integer cents, so totals are exact.
- JSON values of other shapes are not modelled:
  - a non-string `restaurantId`, or line items with non-numeric prices or
    quantities;
  - a `paymentMethods` body that is a truthy non-array, or whose entries are
    falsy.
  The model takes well-typed records, an absent field or an array.
- Action names that are keys inherited from `Object.prototype` (such as
  `"constructor"`) would reach `includes` on a non-array. Every handler
  passes one of the six literal action names, so this never arises.
- Aliasing: the route returns the same order or user object that the store
  holds. The model returns values, so later changes to a returned object are
  not modelled.
- Concurrency. The server handles one request at a time, and each handler is
  one method call here.
- Server.MenuOf: says by existence which restaurant's menu is returned. If two
  restaurants shared an id, it does not say that the first is used; the body
  does, and the seed ids are distinct.
- Server.VisibleRestaurants: states the filtered list by membership only.
  `Server.Store.ListRestaurants` states the exact list, order and
  multiplicity included.
- Server.VisibleOrders: states the filtered list by membership only.
  `Server.Store.ListOrders` states the exact list, order and multiplicity
  included.
- Server.Store.UpdatePayment: its second check (a non-ADMIN updating another
  user, `backend/server.js:113-115`) is modelled, but under the current table
  the guard already refuses every non-ADMIN. So the contract states the
  combined effect: every non-ADMIN is Forbidden before the lookup.
