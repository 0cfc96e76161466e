/** Properties of runs of several handlers against one store: what the
    order lifecycle guarantees to a client, and concrete runs of the
    handlers on the seed data. */
module Lifecycle {
  import opened Domain
  import opened Utils
  import opened Server

  /** An order is paid at most once: after a successful checkout, a second
      checkout of the same id fails whoever asks, with InvalidState when the
      same user asks again, and the order keeps its first payment. */
  method CheckoutTwice(store: Store, first: Option<User>, second: Option<User>,
                       orderId: string, t1: string, t2: string)
    returns (r1: Outcome<Order>, r2: Outcome<Order>)
    requires store.Valid()
    modifies store
    ensures store.Valid()
    ensures r1.Ok? ==> r2.Err? && r1.value in store.orders
    ensures r1.Ok? && first == second ==> r2 == Err(InvalidState)
  {
    r1 := store.Checkout(first, orderId, t1);
    ghost var i: nat;
    if r1.Ok? {
      i := FirstIndex(old(store.orders), OrderId, orderId).value;
      FirstIndexAfterUpdate(old(store.orders), i, r1.value, OrderId, orderId);
    }
    ghost var afterFirst := store.orders;
    r2 := store.Checkout(second, orderId, t2);
    if r1.Ok? {
      assert store.orders == afterFirst;
      assert store.orders[i] == r1.value;
    }
  }

  /** A cancelled order can never be paid. */
  method CancelThenCheckout(store: Store, canceller: Option<User>, payer: Option<User>,
                            orderId: string, t: string)
    returns (r1: Outcome<Order>, r2: Outcome<Order>)
    requires store.Valid()
    modifies store
    ensures store.Valid()
    ensures r1.Ok? ==> r2.Err? && r1.value in store.orders && r1.value.status == Cancelled
  {
    r1 := store.Cancel(canceller, orderId);
    ghost var i: nat;
    if r1.Ok? {
      i := FirstIndex(old(store.orders), OrderId, orderId).value;
      FirstIndexAfterUpdate(old(store.orders), i, r1.value, OrderId, orderId);
    }
    ghost var afterCancel := store.orders;
    r2 := store.Checkout(payer, orderId, t);
    if r1.Ok? {
      assert store.orders == afterCancel;
      assert store.orders[i] == r1.value;
    }
  }

  /** On the seed data, the India manager u2 orders one butter chicken and
      two naan (44000 cents) and pays with pm2; the America manager u3 is
      then refused that order, which stays paid. The actors are the store's
      own records, as the identity middleware resolves them. */
  method ManagerScenario()
    returns (total: int, paidWith: Option<PaymentMethod>, byU3: Outcome<Order>, after: Status)
    ensures total == 44000
    ensures paidWith == Some(PaymentMethod("pm2", "card", "1111"))
    ensures byU3 == Err(Forbidden)
    ensures after == Paid
  {
    var store := new Store();
    var u2, u3 := store.users[1], store.users[2];
    assert u2 == User("u2", "Captain Marvel", Manager, "India", [PaymentMethod("pm2", "card", "1111")]);
    assert u3.role == Manager && u3.country == "America";
    var items := [LineItem("m1", "Butter Chicken", 32000, Some(1)),
                  LineItem("m3", "Garlic Naan (2 pc)", 6000, Some(2))];
    assert items[..1][..0] == [] && items[..1] == [items[0]];
    var created := store.CreateOrder(Some(u2), Some("r1"), Some(items), "ord_1");
    total := created.value.total;
    var paid := store.Checkout(Some(u2), "ord_1", "2024-01-01T00:00:00.000Z");
    paidWith := paid.value.paidWith;
    byU3 := store.Checkout(Some(u3), "ord_1", "2024-01-01T00:00:01.000Z");
    after := store.orders[0].status;
  }

  /** On the seed data, the India member u4 may create an order but, members
      being refused `place_order`, not check it out; the order stays CREATED. */
  method MemberScenario() returns (byU4: Outcome<Order>, after: Status)
    ensures byU4 == Err(Forbidden)
    ensures after == Created
  {
    var store := new Store();
    var u4 := store.users[3];
    assert u4.role == Member;
    var created := store.CreateOrder(Some(u4), Some("r2"), Some([LineItem("m5", "Kathi Roll", 13000, None)]), "ord_2");
    byU4 := store.Checkout(Some(u4), "ord_2", "2024-01-01T00:00:02.000Z");
    after := store.orders[0].status;
  }

  /** On the seed data, with one order from India (u2) and one from America
      (u3), the India member u5 lists exactly the India order, and the
      administrator u1 lists both. */
  method ListingScenario() returns (byU5: Outcome<seq<Order>>, byU1: Outcome<seq<Order>>)
    ensures byU5.Ok? && |byU5.value| == 1 && byU5.value[0].country == "India"
    ensures byU1.Ok? && |byU1.value| == 2
  {
    var store := new Store();
    var u1, u2, u3, u5 := store.users[0], store.users[1], store.users[2], store.users[4];
    assert u1.role == Admin;
    assert u2.country == "India" && u3.country == "America";
    assert u5.role == Member && u5.country == "India";
    var a := store.CreateOrder(Some(u2), Some("r1"), Some([]), "ord_a");
    var b := store.CreateOrder(Some(u3), Some("r3"), Some([]), "ord_b");
    byU5 := store.ListOrders(Some(u5));
    byU1 := store.ListOrders(Some(u1));
    var oa, ob := store.orders[0], store.orders[1];
    assert store.orders == [oa] + [ob];
    InCountryAppend([oa], [ob], OrderCountry, "India");
    InCountrySingle(oa, OrderCountry, "India");
    InCountrySingle(ob, OrderCountry, "India");
  }

  /** On the seed data, the administrator u1 replaces the payment methods
      of the member u4 (who has none): afterwards u4 has exactly the list
      supplied, and a manager trying the same is refused. */
  method PaymentScenario() returns (byU1: Outcome<User>, byU2: Outcome<User>, after: seq<PaymentMethod>)
    ensures byU1.Ok? && byU1.value.id == "u4"
    ensures after == [PaymentMethod("pm9", "card", "9999")]
    ensures byU2 == Err(Forbidden)
  {
    var store := new Store();
    var u1, u2 := store.users[0], store.users[1];
    assert u1.role == Admin && u2.role == Manager;
    assert store.users[3].id == "u4";
    FindUserByIdUnique("u4", store.users, 3);
    byU2 := store.UpdatePayment(Some(u2), "u4", Some([PaymentMethod("pm8", "card", "8888")]));
    byU1 := store.UpdatePayment(Some(u1), "u4", Some([PaymentMethod("pm9", "card", "9999")]));
    after := store.users[3].paymentMethods;
  }
}
