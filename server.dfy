/** The route handlers of the ordering backend. Every handler modelled here
    first runs the permission guard; reads are functions over the store's sequences, and
    the handlers that change data are methods of `Store`, which owns the
    users, restaurants and orders that the server keeps in memory. */
module Server {
  import opened Domain
  import opened Utils

  /** The guard every data route runs first (the `/api/me` echo has none):
      no user gives Unauthenticated, a role the table does not allow gives
      Forbidden. On success it hands on the user. */
  function RequirePermission(actor: Option<User>, action: string): (r: Outcome<User>)
    ensures r == Err(Unauthenticated) <==> actor.None?
    ensures r == Err(Forbidden) <==> actor.Some? && !CheckPermission(actor.value, action, ())
    ensures r.Ok? ==> actor == Some(r.value)
  {
    match actor
    case None => Err(Unauthenticated)
    case Some(user) =>
      // the request object is handed to the table, which never consults it
      if !CheckPermission(user, action, ()) then Err(Forbidden) else Ok(user)
  }

  /** The jurisdiction check of the menu, checkout and cancel handlers: an
      administrator passes, anyone else must have the resource's country. */
  predicate InJurisdiction(user: User, country: string) {
    user.role == Admin || user.country == country
  }

  /** What a user may see of a collection tagged by country. */
  datatype Scope = Unrestricted | Within(country: string)

  /** The restaurant listing's scope: none for the administrator, else the
      user's country, unless that country is the empty string, which the
      handler takes as "no filter". */
  function RestaurantScope(user: User): (sc: Scope)
    ensures sc == Unrestricted <==> user.role == Admin || user.country == ""
    ensures sc.Within? ==> sc.country == user.country
  {
    if user.role == Admin then Unrestricted
    else if user.country == "" then Unrestricted
    else Within(user.country)
  }

  /** The restaurant listing for a user who passed the guard. */
  function VisibleRestaurants(user: User, restaurants: seq<Restaurant>): (r: seq<Restaurant>)
    ensures RestaurantScope(user) == Unrestricted ==> r == restaurants
    ensures user.role != Admin && user.country != "" ==>
      forall x :: x in r <==> x in restaurants && x.country == user.country
    ensures |r| <= |restaurants|
  {
    match RestaurantScope(user)
    case Unrestricted => restaurants
    case Within(c) => InCountry(restaurants, RestaurantCountry, c)
  }

  /** The menu request for a user who passed the guard. */
  function MenuOf(user: User, restaurants: seq<Restaurant>, id: string): (r: Outcome<seq<MenuItem>>)
    ensures r.Err? ==> r.error in {NotFound, Forbidden}
    ensures r == Err(NotFound) <==> forall x :: x in restaurants ==> x.id != id
    ensures r == Err(Forbidden) ==>
      user.role != Admin && exists x :: x in restaurants && x.id == id && x.country != user.country
    ensures r.Ok? ==>
      exists x :: x in restaurants && x.id == id && InJurisdiction(user, x.country) && r.value == x.menu
    ensures user.role == Admin ==> (r.Ok? <==> exists x :: x in restaurants && x.id == id)
  {
    match FirstIndex(restaurants, RestaurantId, id)
    case None => Err(NotFound)
    case Some(i) =>
      var rest := restaurants[i];
      if !InJurisdiction(user, rest.country) then Err(Forbidden)
      else Ok(rest.menu)
  }

  /** The order listing for a user who passed the guard: everything for
      the administrator, the orders of the user's own country otherwise. */
  function VisibleOrders(user: User, orders: seq<Order>): (r: seq<Order>)
    ensures user.role == Admin ==> r == orders
    ensures user.role != Admin ==> forall o :: o in r <==> o in orders && o.country == user.country
    ensures |r| <= |orders|
  {
    if user.role == Admin then orders else InCountry(orders, OrderCountry, user.country)
  }

  /** The quantity a line item is charged for: a missing or zero `qty` counts as one. */
  function Quantity(it: LineItem): (q: int)
    ensures it.qty.Some? && it.qty.value != 0 ==> q == it.qty.value
    ensures it.qty == None || it.qty == Some(0) ==> q == 1
    ensures q != 0
  {
    match it.qty
    case None => 1
    case Some(n) => if n == 0 then 1 else n
  }

  /** The accumulation of `items.reduce((s, it) => s + price * qty, acc)`, left to right. */
  function Reduce(items: seq<LineItem>, acc: int): int {
    if items == [] then acc else Reduce(items[1..], acc + items[0].price * Quantity(items[0]))
  }

  /** Σ price × quantity, item by item from the back. */
  ghost function Sum(items: seq<LineItem>): int {
    if items == [] then 0
    else Sum(items[..|items| - 1]) + items[|items| - 1].price * Quantity(items[|items| - 1])
  }

  lemma {:induction false} SumPrepend(it: LineItem, items: seq<LineItem>)
    ensures Sum([it] + items) == it.price * Quantity(it) + Sum(items)
  {
    if items != [] {
      var all := [it] + items;
      assert all[..|all| - 1] == [it] + items[..|items| - 1];
      SumPrepend(it, items[..|items| - 1]);
    } else {
      assert ([it] + items)[..0] == [];
    }
  }

  /** The fold the handler runs computes the sum. */
  lemma {:induction false} ReduceIsSum(items: seq<LineItem>, acc: int)
    ensures Reduce(items, acc) == acc + Sum(items)
  {
    if items != [] {
      ReduceIsSum(items[1..], acc + items[0].price * Quantity(items[0]));
      assert items == [items[0]] + items[1..];
      SumPrepend(items[0], items[1..]);
    }
  }

  /** With non-negative prices and quantities, the total is non-negative. */
  lemma {:induction false} SumNonNegative(items: seq<LineItem>)
    requires forall j :: 0 <= j < |items| ==> items[j].price >= 0 && Quantity(items[j]) >= 0
    ensures Sum(items) >= 0
  {
    if items != [] {
      SumNonNegative(items[..|items| - 1]);
    }
  }

  /** An order's total. */
  function OrderTotal(items: seq<LineItem>): (total: int)
    ensures total == Sum(items)
  {
    ReduceIsSum(items, 0);
    Reduce(items, 0)
  }

  /** The body check of order creation: a present, non-empty restaurant id and an items array. */
  predicate ValidOrderBody(restaurantId: Option<string>, items: Option<seq<LineItem>>) {
    restaurantId.Some? && restaurantId.value != "" && items.Some?
  }

  /** The fields an order keeps for its whole life, and the payment fields,
      which are set exactly when it is paid. */
  ghost predicate WellFormed(o: Order) {
    o.total == Sum(o.items) &&
    (o.paidWith.Some? <==> o.status == Paid) &&
    (o.paidAt.Some? <==> o.status == Paid)
  }

  /** The lifecycle: an order stays as it is, or a CREATED order becomes PAID or CANCELLED. */
  predicate StatusMayBecome(before: Status, after: Status) {
    before == after || before == Created
  }

  /** How one order may change: it keeps its identity, contents, total,
      creator and country, its status follows the lifecycle, and once out
      of CREATED it never changes again. */
  ghost predicate Succeeds(o: Order, p: Order) {
    p.id == o.id && p.restaurantId == o.restaurantId && p.items == o.items &&
    p.total == o.total && p.createdBy == o.createdBy && p.country == o.country &&
    StatusMayBecome(o.status, p.status) &&
    (o.status != Created ==> p == o)
  }

  /** How the order list may evolve: orders are only appended, and each
      existing order changes only as `Succeeds` allows. */
  ghost predicate Evolves(before: seq<Order>, after: seq<Order>) {
    |before| <= |after| &&
    forall i :: 0 <= i < |before| ==> Succeeds(before[i], after[i])
  }

  lemma EvolvesReflexive(orders: seq<Order>)
    ensures Evolves(orders, orders)
  {
  }

  /** Appending an order, or replacing one by a permitted successor, keeps to the lifecycle. */
  lemma EvolvesByAppend(orders: seq<Order>, o: Order)
    ensures Evolves(orders, orders + [o])
  {
  }

  lemma EvolvesByUpdate(orders: seq<Order>, i: nat, p: Order)
    requires i < |orders| && Succeeds(orders[i], p)
    ensures Evolves(orders, orders[i := p])
  {
  }

  /** Any run of handlers keeps to the lifecycle. */
  lemma EvolvesTransitive(a: seq<Order>, b: seq<Order>, c: seq<Order>)
    requires Evolves(a, b) && Evolves(b, c)
    ensures Evolves(a, c)
  {
  }

  /** Once PAID or CANCELLED, an order never returns to CREATED, whatever follows. */
  lemma TerminalStaysTerminal(a: seq<Order>, b: seq<Order>, i: nat)
    requires Evolves(a, b) && i < |a| && a[i].status != Created
    ensures b[i].status == a[i].status && b[i].status != Created
  {
  }

  /** The in-memory data store and the handlers that change it. */
  class Store {
    var users: seq<User>
    var restaurants: seq<Restaurant>
    var orders: seq<Order>

    ghost predicate Valid()
      reads this
    {
      UniqueIds(users) &&
      (forall u :: u in users ==> u.country != "") &&
      (forall j :: 0 <= j < |orders| ==> WellFormed(orders[j]))
    }

    /** The store as the server starts: the seed data. */
    constructor ()
      ensures Valid()
      ensures users == SeedData().users && restaurants == SeedData().restaurants
      ensures orders == []
    {
      var d := SeedData();
      users, restaurants, orders := d.users, d.restaurants, d.orders;
    }

    /** The identity middleware's effect: the user named by the request
        header, or none when the header is absent, empty or unknown. */
    function Authenticate(userId: Option<string>): (actor: Option<User>)
      reads this
      ensures actor.Some? ==> userId.Some? && actor.value in users && actor.value.id == userId.value
      ensures actor.None? <==>
        userId.None? || userId.value == "" || forall u :: u in users ==> u.id != userId.value
    {
      match userId
      case None => None
      case Some(id) => if id == "" then None else FindUserById(id, users)
    }

    /** GET /api/restaurants. */
    function ListRestaurants(actor: Option<User>): (r: Outcome<seq<Restaurant>>)
      reads this
      ensures actor.None? <==> r == Err(Unauthenticated)
      ensures actor.Some? ==> r.Ok?
      ensures actor.Some? && actor.value.role == Admin ==> r == Ok(restaurants)
      ensures actor.Some? && actor.value.role != Admin && actor.value.country != "" ==>
        r == Ok(InCountry(restaurants, RestaurantCountry, actor.value.country))
      ensures actor.Some? && actor.value.country == "" ==> r == Ok(restaurants)
      ensures actor.Some? ==> r == Ok(VisibleRestaurants(actor.value, restaurants))
    {
      match RequirePermission(actor, "view_restaurants")
      case Err(e) => Err(e)
      case Ok(user) => Ok(VisibleRestaurants(user, restaurants))
    }

    /** A user of a valid store always has a non-empty country, so the
        listing a non-administrator gets is exactly the restaurants of
        their country. */
    lemma ListRestaurantsOfUser(u: User)
      requires Valid() && u in users && u.role != Admin
      ensures ListRestaurants(Some(u)) == Ok(InCountry(restaurants, RestaurantCountry, u.country))
      ensures forall x :: x in ListRestaurants(Some(u)).value <==> x in restaurants && x.country == u.country
    {
    }

    /** GET /api/restaurants/:id/menu. */
    function GetMenu(actor: Option<User>, restaurantId: string): (r: Outcome<seq<MenuItem>>)
      reads this
      ensures actor.None? <==> r == Err(Unauthenticated)
      ensures actor.Some? ==> r == MenuOf(actor.value, restaurants, restaurantId)
    {
      match RequirePermission(actor, "view_restaurants")
      case Err(e) => Err(e)
      case Ok(user) => MenuOf(user, restaurants, restaurantId)
    }

    /** GET /api/orders. */
    function ListOrders(actor: Option<User>): (r: Outcome<seq<Order>>)
      reads this
      ensures actor.None? <==> r == Err(Unauthenticated)
      ensures actor.Some? && actor.value.role == Admin ==> r == Ok(orders)
      ensures actor.Some? && actor.value.role != Admin ==>
        r == Ok(InCountry(orders, OrderCountry, actor.value.country)) &&
        forall o :: o in r.value <==> o in orders && o.country == actor.value.country
    {
      match RequirePermission(actor, "view_orders")
      case Err(e) => Err(e)
      case Ok(user) => Ok(VisibleOrders(user, orders))
    }

    /** POST /api/orders: validates the body, then appends a CREATED order
        whose total is Σ price × quantity and whose country is the creator's.
        The restaurant id is not looked up. */
    method CreateOrder(actor: Option<User>, restaurantId: Option<string>,
                       items: Option<seq<LineItem>>, newId: string)
      returns (r: Outcome<Order>)
      requires Valid()
      modifies this
      ensures Valid()
      ensures users == old(users) && restaurants == old(restaurants)
      ensures Evolves(old(orders), orders)
      ensures actor.None? ==> r == Err(Unauthenticated)
      ensures actor.Some? && !ValidOrderBody(restaurantId, items) ==> r == Err(ValidationError)
      ensures r.Err? ==> orders == old(orders)
      ensures r.Ok? <==> actor.Some? && ValidOrderBody(restaurantId, items)
      ensures r.Ok? ==>
        orders == old(orders) + [r.value] &&
        r.value == Order(newId, restaurantId.value, items.value, Sum(items.value), Created,
                         actor.value.id, actor.value.country, None, None)
    {
      EvolvesReflexive(orders);
      var g := RequirePermission(actor, "create_order");
      if g.Err? {
        return Err(g.error);
      }
      var user := g.value;
      if !ValidOrderBody(restaurantId, items) {
        return Err(ValidationError);
      }
      var order := Order(newId, restaurantId.value, items.value, OrderTotal(items.value), Created,
                         user.id, user.country, None, None);
      EvolvesByAppend(orders, order);
      orders := orders + [order];
      r := Ok(order);
    }

    /** POST /api/orders/:id/checkout: NotFound, then Forbidden outside the
        user's jurisdiction, then InvalidState unless CREATED, then
        PaymentMethodMissing; on success the order is PAID with the user's
        first payment method at `paidAt`, and nothing else changes. */
    method Checkout(actor: Option<User>, orderId: string, paidAt: string) returns (r: Outcome<Order>)
      requires Valid()
      modifies this
      ensures Valid()
      ensures users == old(users) && restaurants == old(restaurants)
      ensures Evolves(old(orders), orders)
      ensures r.Err? ==> orders == old(orders)
      ensures actor.None? ==> r == Err(Unauthenticated)
      ensures actor.Some? && actor.value.role == Member ==> r == Err(Forbidden)
      ensures actor.Some? && actor.value.role != Member ==>
        match FirstIndex(old(orders), OrderId, orderId)
        case None => r == Err(NotFound)
        case Some(i) =>
          var o := old(orders)[i];
          if !InJurisdiction(actor.value, o.country) then r == Err(Forbidden)
          else if o.status != Created then r == Err(InvalidState)
          else if actor.value.paymentMethods == [] then r == Err(PaymentMethodMissing)
          else
            r == Ok(o.(status := Paid, paidWith := Some(actor.value.paymentMethods[0]),
                       paidAt := Some(paidAt))) &&
            orders == old(orders)[i := r.value]
    {
      EvolvesReflexive(orders);
      var g := RequirePermission(actor, "place_order");
      if g.Err? {
        return Err(g.error);
      }
      var user := g.value;
      var found := FirstIndex(orders, OrderId, orderId);
      if found.None? {
        return Err(NotFound);
      }
      var i := found.value;
      if !InJurisdiction(user, orders[i].country) {
        return Err(Forbidden);
      }
      if orders[i].status != Created {
        return Err(InvalidState);
      }
      if user.paymentMethods == [] {
        return Err(PaymentMethodMissing);
      }
      var pm := user.paymentMethods[0];
      MarkPaid(i, pm, paidAt);
      r := Ok(orders[i]);
    }

    /** The in-place writes of a successful checkout: status, payment method, time. */
    method MarkPaid(i: nat, pm: PaymentMethod, paidAt: string)
      requires Valid() && i < |orders| && orders[i].status == Created
      modifies this
      ensures Valid()
      ensures users == old(users) && restaurants == old(restaurants)
      ensures orders == old(orders)[i := old(orders)[i].(status := Paid, paidWith := Some(pm),
                                                         paidAt := Some(paidAt))]
      ensures Evolves(old(orders), orders)
    {
      orders := orders[i := orders[i].(status := Paid)];
      orders := orders[i := orders[i].(paidWith := Some(pm))];
      orders := orders[i := orders[i].(paidAt := Some(paidAt))];
      EvolvesByUpdate(old(orders), i, orders[i]);
    }

    /** POST /api/orders/:id/cancel: NotFound, then Forbidden outside the
        user's jurisdiction, then InvalidState on a PAID order; otherwise the
        order is CANCELLED, so cancelling a cancelled order changes nothing. */
    method Cancel(actor: Option<User>, orderId: string) returns (r: Outcome<Order>)
      requires Valid()
      modifies this
      ensures Valid()
      ensures users == old(users) && restaurants == old(restaurants)
      ensures Evolves(old(orders), orders)
      ensures r.Err? ==> orders == old(orders)
      ensures actor.None? ==> r == Err(Unauthenticated)
      ensures actor.Some? && actor.value.role == Member ==> r == Err(Forbidden)
      ensures actor.Some? && actor.value.role != Member ==>
        match FirstIndex(old(orders), OrderId, orderId)
        case None => r == Err(NotFound)
        case Some(i) =>
          var o := old(orders)[i];
          if !InJurisdiction(actor.value, o.country) then r == Err(Forbidden)
          else if o.status == Paid then r == Err(InvalidState)
          else
            r == Ok(o.(status := Cancelled)) && orders == old(orders)[i := r.value] &&
            (o.status == Cancelled ==> orders == old(orders))
    {
      EvolvesReflexive(orders);
      var g := RequirePermission(actor, "cancel_order");
      if g.Err? {
        return Err(g.error);
      }
      var user := g.value;
      var found := FirstIndex(orders, OrderId, orderId);
      if found.None? {
        return Err(NotFound);
      }
      var i := found.value;
      if !InJurisdiction(user, orders[i].country) {
        return Err(Forbidden);
      }
      if orders[i].status == Paid {
        return Err(InvalidState);
      }
      MarkCancelled(i);
      r := Ok(orders[i]);
    }

    /** The in-place write of a successful cancellation. */
    method MarkCancelled(i: nat)
      requires Valid() && i < |orders| && orders[i].status != Paid
      modifies this
      ensures Valid()
      ensures users == old(users) && restaurants == old(restaurants)
      ensures orders == old(orders)[i := old(orders)[i].(status := Cancelled)]
      ensures old(orders)[i].status == Cancelled ==> orders == old(orders)
      ensures Evolves(old(orders), orders)
    {
      orders := orders[i := orders[i].(status := Cancelled)];
      EvolvesByUpdate(old(orders), i, orders[i]);
    }

    /** PUT /api/users/:id/payment: a non-administrator may only update
        their own record (checked before the lookup); the target's list is
        replaced by the one supplied, or emptied when none is. */
    method UpdatePayment(actor: Option<User>, targetId: string, methods: Option<seq<PaymentMethod>>)
      returns (r: Outcome<User>)
      requires Valid()
      modifies this
      ensures Valid()
      ensures restaurants == old(restaurants) && orders == old(orders)
      ensures r.Err? ==> users == old(users)
      ensures actor.None? ==> r == Err(Unauthenticated)
      ensures actor.Some? && actor.value.role != Admin ==> r == Err(Forbidden)
      ensures actor.Some? && actor.value.role == Admin ==>
        match FirstIndex(old(users), UserId, targetId)
        case None => r == Err(NotFound)
        case Some(i) =>
          var supplied := if methods.Some? then methods.value else [];
          r == Ok(old(users)[i].(paymentMethods := supplied)) &&
          users == old(users)[i := r.value]
    {
      var g := RequirePermission(actor, "update_payment");
      if g.Err? {
        return Err(g.error);
      }
      var user := g.value;
      if user.role != Admin && user.id != targetId {
        return Err(Forbidden);
      }
      var found := FirstIndex(users, UserId, targetId);
      if found.None? {
        return Err(NotFound);
      }
      var i := found.value;
      users := users[i := users[i].(paymentMethods := if methods.Some? then methods.value else [])];
      r := Ok(users[i]);
    }
  }
}
