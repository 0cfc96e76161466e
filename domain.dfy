/** Entities of the ordering backend, its error taxonomy, and the two
    sequence operations every handler is built from: `find` (first match by
    key) and `filter` (keep the entries of one country, in order). */
module Domain {

  datatype Option<+T> = None | Some(value: T)

  /** The outcomes a handler answers with: a value, or one error. */
  datatype Error =
    | Unauthenticated       // no user resolved for the request
    | Forbidden             // role or jurisdiction check failed
    | NotFound              // the referenced restaurant, order or user is absent
    | ValidationError       // the request body has the wrong shape
    | InvalidState          // the order's status does not allow the transition
    | PaymentMethodMissing  // checkout by a user with no payment method on file

  datatype Outcome<+T> = Ok(value: T) | Err(error: Error)

  /** The HTTP status each error is answered with. */
  function HttpStatus(e: Error): (code: nat)
    ensures code == 401 <==> e == Unauthenticated
    ensures code == 403 <==> e == Forbidden
    ensures code == 404 <==> e == NotFound
    ensures code == 400 <==> e in {ValidationError, InvalidState, PaymentMethodMissing}
  {
    match e
    case Unauthenticated => 401
    case Forbidden => 403
    case NotFound => 404
    case _ => 400
  }

  datatype Role = Admin | Manager | Member

  datatype PaymentMethod = PaymentMethod(id: string, kind: string, last4: string)

  /** A user; `country` is the user's jurisdiction ("GLOBAL" for the administrator). */
  datatype User = User(id: string, name: string, role: Role, country: string,
                       paymentMethods: seq<PaymentMethod>)

  /** A menu item; prices are whole cents. */
  datatype MenuItem = MenuItem(id: string, name: string, price: int)

  datatype Restaurant = Restaurant(id: string, name: string, country: string, menu: seq<MenuItem>)

  /** A line item as the client sends it; `qty` is None when the field is absent. */
  datatype LineItem = LineItem(id: string, name: string, price: int, qty: Option<int>)

  datatype Status = Created | Paid | Cancelled

  datatype Order = Order(
    id: string,
    restaurantId: string,
    items: seq<LineItem>,
    total: int,
    status: Status,
    createdBy: string,
    country: string,
    paidWith: Option<PaymentMethod>,
    paidAt: Option<string>)

  // Keys the handlers look entities up and filter them by.
  function UserId(u: User): string { u.id }
  function RestaurantId(r: Restaurant): string { r.id }
  function RestaurantCountry(r: Restaurant): string { r.country }
  function OrderId(o: Order): string { o.id }
  function OrderCountry(o: Order): string { o.country }

  /** `s.find(x => key(x) === k)`, as the index of the first entry whose key is `k`. */
  function FirstIndex<T>(s: seq<T>, key: T -> string, k: string): (r: Option<nat>)
    ensures r.Some? ==> r.value < |s| && key(s[r.value]) == k
    ensures r.Some? ==> forall j :: 0 <= j < r.value ==> key(s[j]) != k
    ensures r.None? <==> forall j :: 0 <= j < |s| ==> key(s[j]) != k
  {
    if s == [] then None
    else if key(s[0]) == k then Some(0)
    else match FirstIndex(s[1..], key, k)
      case None => None
      case Some(i) => Some(i + 1)
  }

  /** The lookup depends only on the keys of the entries. */
  lemma {:induction false} FirstIndexSameKeys<T>(s: seq<T>, t: seq<T>, key: T -> string, k: string)
    requires |s| == |t|
    requires forall j :: 0 <= j < |s| ==> key(s[j]) == key(t[j])
    ensures FirstIndex(s, key, k) == FirstIndex(t, key, k)
  {
    if s != [] {
      FirstIndexSameKeys(s[1..], t[1..], key, k);
    }
  }

  /** Replacing an entry by one with the same key does not change any lookup. */
  lemma FirstIndexAfterUpdate<T>(s: seq<T>, i: nat, x: T, key: T -> string, k: string)
    requires i < |s| && key(x) == key(s[i])
    ensures FirstIndex(s[i := x], key, k) == FirstIndex(s, key, k)
  {
    FirstIndexSameKeys(s, s[i := x], key, k);
  }

  /** `s.filter(x => countryOf(x) === c)`: the entries of country `c`, in their order. */
  function InCountry<T(!new)>(s: seq<T>, countryOf: T -> string, c: string): (r: seq<T>)
    ensures |r| <= |s|
    ensures forall x :: x in r <==> x in s && countryOf(x) == c
  {
    if s == [] then []
    else
      var rest := InCountry(s[1..], countryOf, c);
      assert forall x :: x in s <==> x == s[0] || x in s[1..];
      if countryOf(s[0]) == c then [s[0]] + rest else rest
  }

  /** The filter distributes over concatenation; with `InCountrySingle`
      this fixes the result, order and multiplicity included. */
  lemma {:induction false} InCountryAppend<T(!new)>(a: seq<T>, b: seq<T>, countryOf: T -> string, c: string)
    ensures InCountry(a + b, countryOf, c) == InCountry(a, countryOf, c) + InCountry(b, countryOf, c)
  {
    if a == [] {
      assert a + b == b;
    } else {
      assert (a + b)[1..] == a[1..] + b;
      InCountryAppend(a[1..], b, countryOf, c);
    }
  }

  lemma InCountrySingle<T(!new)>(x: T, countryOf: T -> string, c: string)
    ensures InCountry([x], countryOf, c) == if countryOf(x) == c then [x] else []
  {
    assert [x][1..] == [];
  }

  /** A sequence entirely of country `c` passes the filter unchanged. */
  lemma {:induction false} InCountryKeepsAll<T(!new)>(s: seq<T>, countryOf: T -> string, c: string)
    requires forall j :: 0 <= j < |s| ==> countryOf(s[j]) == c
    ensures InCountry(s, countryOf, c) == s
  {
    if s != [] {
      InCountryKeepsAll(s[1..], countryOf, c);
    }
  }
}
