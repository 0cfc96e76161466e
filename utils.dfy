/** The backend's helpers: the role table every data route is authorised
    against, the user lookup, and the seed data the store starts from. */
module Utils {
  import opened Domain

  /** Action name to the roles allowed to attempt it. */
  const Can: map<string, seq<Role>> := map[
    "view_restaurants" := [Admin, Manager, Member],
    "create_order" := [Admin, Manager, Member],
    "place_order" := [Admin, Manager],
    "cancel_order" := [Admin, Manager],
    "update_payment" := [Admin],
    "view_orders" := [Admin, Manager, Member]
  ]

  /** May `user` attempt `action`? The request is passed along but, being of
      an arbitrary type, cannot take part in the decision. Stated role by
      role, the table reads as the three ensures below. */
  function CheckPermission<Req>(user: User, action: string, req: Req): (allowed: bool)
    ensures action !in Can ==> !allowed
    ensures user.role == Admin ==>
      (allowed <==> action in {"view_restaurants", "create_order", "place_order",
                               "cancel_order", "update_payment", "view_orders"})
    ensures user.role == Manager ==>
      (allowed <==> action in {"view_restaurants", "create_order", "place_order",
                               "cancel_order", "view_orders"})
    ensures user.role == Member ==>
      (allowed <==> action in {"view_restaurants", "create_order", "view_orders"})
  {
    if action !in Can then false
    else if user.role !in Can[action] then false
    else true
  }

  /** For an action of the table, the decision is membership of the role in its list. */
  lemma KnownActionDecision<Req>(user: User, action: string, req: Req)
    requires action in Can
    ensures CheckPermission(user, action, req) <==> user.role in Can[action]
  {
  }

  /** The decision is a function of the role and the action alone. */
  lemma DecisionIgnoresRequest<R1, R2>(u1: User, u2: User, action: string, req1: R1, req2: R2)
    requires u1.role == u2.role
    ensures CheckPermission(u1, action, req1) == CheckPermission(u2, action, req2)
  {
  }

  /** The table's rows for the roles they name. */
  lemma RoleTable<Req>(user: User, req: Req)
    ensures CheckPermission(user, "update_payment", req) <==> user.role == Admin
    ensures CheckPermission(user, "place_order", req) <==> user.role != Member
    ensures CheckPermission(user, "cancel_order", req) <==> user.role != Member
    ensures CheckPermission(user, "view_restaurants", req)
    ensures CheckPermission(user, "create_order", req)
    ensures CheckPermission(user, "view_orders", req)
  {
  }

  /** `users.find(u => u.id === id)`. */
  function FindUserById(id: string, users: seq<User>): (r: Option<User>)
    ensures r.Some? ==> r.value in users && r.value.id == id
    ensures r.None? <==> forall u :: u in users ==> u.id != id
  {
    match FirstIndex(users, UserId, id)
    case None => None
    case Some(i) => Some(users[i])
  }

  ghost predicate UniqueIds(users: seq<User>) {
    forall i, j :: 0 <= i < j < |users| ==> users[i].id != users[j].id
  }

  /** With distinct ids the lookup finds the one user with that id. */
  lemma FindUserByIdUnique(id: string, users: seq<User>, k: nat)
    requires UniqueIds(users) && k < |users| && users[k].id == id
    ensures FindUserById(id, users) == Some(users[k])
  {
    var r := FirstIndex(users, UserId, id);
    assert r.Some? by { assert UserId(users[k]) == id; }
  }

  /** The three collections the server starts from. */
  datatype Data = Data(users: seq<User>, restaurants: seq<Restaurant>, orders: seq<Order>)

  function SeedData(): (d: Data)
    ensures UniqueIds(d.users)
    ensures forall u :: u in d.users ==> u.country != ""
    ensures d.orders == []
  {
    Data(SeedUsers(), SeedRestaurants(), [])
  }

  /** The six seeded users: one administrator, a manager and members in India and America. */
  function SeedUsers(): seq<User> {
    [ User("u1", "Nick Fury", Admin, "GLOBAL", [PaymentMethod("pm1", "card", "4242")]),
      User("u2", "Captain Marvel", Manager, "India", [PaymentMethod("pm2", "card", "1111")]),
      User("u3", "Captain America", Manager, "America", [PaymentMethod("pm3", "card", "2222")]),
      User("u4", "Thanos", Member, "India", []),
      User("u5", "Thor", Member, "India", []),
      User("u6", "Travis", Member, "America", []) ]
  }

  /** The four seeded restaurants, two per country; prices in cents. */
  function SeedRestaurants(): seq<Restaurant> {
    [ Restaurant("r1", "Bombay Bites", "India", [
        MenuItem("m1", "Butter Chicken", 32000),
        MenuItem("m2", "Paneer Tikka", 24000),
        MenuItem("m3", "Garlic Naan (2 pc)", 6000),
        MenuItem("m4", "Chicken Biryani", 28000)]),
      Restaurant("r2", "Mumbai Rolls", "India", [
        MenuItem("m5", "Kathi Roll", 13000),
        MenuItem("m6", "Veg Frankie", 9000),
        MenuItem("m7", "Chicken Mayo Roll", 16000)]),
      Restaurant("r3", "NY Deli", "America", [
        MenuItem("m8", "Pastrami Sandwich", 900),
        MenuItem("m9", "Cheesecake Slice", 550),
        MenuItem("m10", "Bagel w/ Cream Cheese", 350),
        MenuItem("m11", "NY Pizza Slice", 400)]),
      Restaurant("r4", "LA Taco Hub", "America", [
        MenuItem("m12", "Beef Taco", 300),
        MenuItem("m13", "Chicken Taco", 250),
        MenuItem("m14", "Guacamole Dip", 150)]) ]
  }
}
