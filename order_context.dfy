/**
 * The order ledger: the list of orders held by the order provider, the pure
 * lookups over it (`find` by id, `filter` by owner or by any of the views'
 * criteria) and the mutators that replace the list wholesale.
 */
module OrderContext {
  import opened Wrappers

  datatype Status = Pending | Assigned | InProgress | Completed | Cancelled

  datatype PaymentStatus = PaymentPending | Paid

  datatype Review = Review(rating: int, comment: string)

  /**
   * One order. `createdAt` is the creation instant in milliseconds (the
   * source stores its ISO text and every reader parses it back to this number).
   */
  datatype Order = Order(
    id: string,
    userId: string,
    service: string,
    details: string,
    address: string,
    date: string,
    time: string,
    status: Status,
    partnerId: Option<string>,
    partnerName: Option<string>,
    price: int,
    paymentStatus: PaymentStatus,
    createdAt: int,
    review: Option<Review>)

  /** What a caller hands to `createOrder`: an order without id, status, payment status and timestamp. */
  datatype OrderData = OrderData(
    userId: string,
    service: string,
    details: string,
    address: string,
    date: string,
    time: string,
    price: int)

  /** The string each status carries in the source, which the views switch on. */
  function StatusName(s: Status): string
  {
    match s
    case Pending => "pending"
    case Assigned => "assigned"
    case InProgress => "in_progress"
    case Completed => "completed"
    case Cancelled => "cancelled"
  }

  /** The status a string names, if any: the inverse of `StatusName`. */
  function ParseStatus(name: string): (r: Option<Status>)
    ensures r.Some? ==> StatusName(r.value) == name
    ensures r.None? ==> forall st :: StatusName(st) != name
  {
    if name == "pending" then Some(Pending)
    else if name == "assigned" then Some(Assigned)
    else if name == "in_progress" then Some(InProgress)
    else if name == "completed" then Some(Completed)
    else if name == "cancelled" then Some(Cancelled)
    else None
  }

  /** Parsing a status's name gives the status back. */
  lemma StatusNameRoundTrip(st: Status)
    ensures ParseStatus(StatusName(st)) == Some(st)
  {
  }

  /** The order the ledger appends for `data`, given the id and instant the clock supplied. */
  function NewOrder(data: OrderData, id: string, now: int): Order
  {
    Order(id, data.userId, data.service, data.details, data.address, data.date, data.time,
          Pending, None, None, data.price, PaymentPending, now, None)
  }

  /** The views' condition for offering a review: the order is completed and carries none yet. */
  predicate ReviewOffered(o: Order)
  {
    o.status == Completed && o.review.None?
  }

  // ---------------------------------------------------------------------------
  // Lookups

  /** Some order of `s` carries `id`. */
  predicate HasId(s: seq<Order>, id: string)
  {
    exists i :: 0 <= i < |s| && s[i].id == id
  }

  /** No two orders of `s` share an id (the clock-derived ids do not guarantee it). */
  predicate UniqueIds(s: seq<Order>)
  {
    forall i, j :: 0 <= i < j < |s| ==> s[i].id != s[j].id
  }

  /** `getOrderById`: `Array.prototype.find` by id, an order carrying `id` or nothing. */
  function FindById(s: seq<Order>, id: string): (r: Option<Order>)
    ensures r.None? <==> !HasId(s, id)
    ensures r.Some? ==> r.value.id == id && r.value in s
  {
    if s == [] then None
    else if s[0].id == id then Some(s[0])
    else
      assert HasId(s, id) ==> HasId(s[1..], id) by {
        if HasId(s, id) {
          var i :| 0 <= i < |s| && s[i].id == id;
          assert s[1..][i - 1].id == id;
        }
      }
      FindById(s[1..], id)
  }

  /** The lookup returns the FIRST order carrying the id: the one at `k` when none before `k` carries it. */
  lemma {:induction false} FindByIdIsFirst(s: seq<Order>, id: string, k: int)
    requires 0 <= k < |s| && s[k].id == id && !HasId(s[..k], id)
    ensures FindById(s, id) == Some(s[k])
  {
    if k > 0 {
      var prefix, rest := s[..k], s[1..][..k - 1];
      assert prefix[0] == s[0];
      forall j | 0 <= j < k - 1
        ensures rest[j].id != id
      {
        assert rest[j] == prefix[j + 1];
      }
      FindByIdIsFirst(s[1..], id, k - 1);
    }
  }

  /** Which orders a view selects. */
  datatype Criterion =
    | OwnedBy(userId: string)
    | StatusIn(statuses: set<Status>)
    | IsPaid
    | HasReview
    | PartnerVisible(partnerId: string)

  predicate Holds(c: Criterion, o: Order)
  {
    match c
    case OwnedBy(u) => o.userId == u
    case StatusIn(ss) => o.status in ss
    case IsPaid => o.paymentStatus == Paid
    case HasReview => o.review.Some?
    case PartnerVisible(p) => o.partnerId == Some(p) || o.status == Assigned
  }

  /** `Array.prototype.filter` with criterion `c`: the orders satisfying `c`, in their order. */
  function Filter(s: seq<Order>, c: Criterion): (r: seq<Order>)
    ensures |r| <= |s|
    ensures forall o :: o in r <==> o in s && Holds(c, o)
  {
    if s == [] then []
    else
      var init, last := s[..|s| - 1], s[|s| - 1];
      assert s == init + [last];
      Filter(init, c) + (if Holds(c, last) then [last] else [])
  }

  /** When every order satisfies `c`, filtering keeps the list as it is. */
  lemma {:induction false} FilterKeepsAll(s: seq<Order>, c: Criterion)
    requires forall o :: o in s ==> Holds(c, o)
    ensures Filter(s, c) == s
    decreases |s|
  {
    if s != [] {
      var init := s[..|s| - 1];
      assert s == init + [s[|s| - 1]];
      FilterKeepsAll(init, c);
    }
  }

  /** How many orders satisfy `c` (`filter(...).length`). */
  function Count(s: seq<Order>, c: Criterion): nat
  {
    |Filter(s, c)|
  }

  /** Filtering a list extended by one order extends the filtered list by that order when it qualifies. */
  lemma FilterSnoc(s: seq<Order>, x: Order, c: Criterion)
    ensures Filter(s + [x], c) == Filter(s, c) + (if Holds(c, x) then [x] else [])
  {
    assert (s + [x])[..|s|] == s;
  }

  /** Concatenation is associative. */
  lemma ConcatAssoc(x: seq<Order>, y: seq<Order>, z: seq<Order>)
    ensures (x + y) + z == x + (y + z)
  {
  }

  /** Filtering distributes over concatenation, so the filtered list keeps the ledger's order. */
  lemma {:induction false} FilterAppend(a: seq<Order>, b: seq<Order>, c: Criterion)
    ensures Filter(a + b, c) == Filter(a, c) + Filter(b, c)
    decreases |b|
  {
    if b == [] {
      assert a + b == a;
    } else {
      var init, last := b[..|b| - 1], b[|b| - 1];
      var fa, fi, tail := Filter(a, c), Filter(init, c), if Holds(c, last) then [last] else [];
      assert b == init + [last];
      assert a + b == (a + init) + [last];
      FilterAppend(a, init, c);
      FilterSnoc(a + init, last, c);
      FilterSnoc(init, last, c);
      calc {
        Filter(a + b, c);
        Filter(a + init, c) + tail;
        (fa + fi) + tail;
        { ConcatAssoc(fa, fi, tail); }
        fa + (fi + tail);
        fa + Filter(b, c);
      }
    }
  }

  /**
   * Status counts over disjoint status sets add up: the count for the union
   * of two disjoint sets of statuses is the sum of their counts.
   */
  lemma {:induction false} CountDisjointStatuses(s: seq<Order>, a: set<Status>, b: set<Status>)
    requires a !! b
    ensures Count(s, StatusIn(a)) + Count(s, StatusIn(b)) == Count(s, StatusIn(a + b))
    decreases |s|
  {
    if s != [] {
      CountDisjointStatuses(s[..|s| - 1], a, b);
    }
  }

  /** Every order has one of the five statuses. */
  lemma {:induction false} CountAllStatuses(s: seq<Order>)
    ensures Count(s, StatusIn({Pending, Assigned, InProgress, Completed, Cancelled})) == |s|
    decreases |s|
  {
    if s != [] {
      var init, last := s[..|s| - 1], s[|s| - 1];
      CountAllStatuses(init);
      assert Holds(StatusIn({Pending, Assigned, InProgress, Completed, Cancelled}), last) by {
        match last.status
        case Pending =>
        case Assigned =>
        case InProgress =>
        case Completed =>
        case Cancelled =>
      }
    }
  }

  /** Looking up an id after an append: an earlier match wins over the new order. */
  lemma {:induction false} FindByIdAppend(s: seq<Order>, o: Order, id: string)
    ensures FindById(s + [o], id) ==
      if FindById(s, id).Some? then FindById(s, id) else if o.id == id then Some(o) else None
    decreases |s|
  {
    if s == [] {
      assert s + [o] == [o];
    } else {
      assert (s + [o])[1..] == s[1..] + [o];
      FindByIdAppend(s[1..], o, id);
    }
  }

  // ---------------------------------------------------------------------------
  // Rewrites

  /** The fields one mutator overwrites on a matching order. */
  datatype Change =
    | SetStatus(status: Status, partnerId: Option<string>, partnerName: Option<string>)
    | SetPayment(paymentStatus: PaymentStatus)
    | SetReview(review: Review)

  /** `{ ...order, <fields of ch> }`: the order with the fields of `ch` overwritten. */
  function Apply(o: Order, ch: Change): (r: Order)
    ensures r.id == o.id && r.userId == o.userId && r.price == o.price && r.createdAt == o.createdAt
    ensures r.service == o.service && r.details == o.details && r.address == o.address
    ensures r.date == o.date && r.time == o.time
  {
    match ch
    case SetStatus(st, pid, pname) => o.(status := st, partnerId := pid, partnerName := pname)
    case SetPayment(p) => o.(paymentStatus := p)
    case SetReview(rv) => o.(review := Some(rv))
  }

  /**
   * `prev.map(order => order.id === id ? apply(order) : order)`: every order
   * carrying `id` is rewritten, every other order is kept, and the list keeps
   * its length and order.
   */
  function Rewrite(s: seq<Order>, id: string, ch: Change): (r: seq<Order>)
    ensures |r| == |s|
    ensures forall i :: 0 <= i < |s| && s[i].id != id ==> r[i] == s[i]
    ensures forall i :: 0 <= i < |s| && s[i].id == id ==> r[i] == Apply(s[i], ch)
  {
    if s == [] then []
    else [if s[0].id == id then Apply(s[0], ch) else s[0]] + Rewrite(s[1..], id, ch)
  }

  /** A rewrite leaves every id where it was. */
  lemma RewriteKeepsIds(s: seq<Order>, id: string, ch: Change)
    ensures forall i :: 0 <= i < |s| ==> Rewrite(s, id, ch)[i].id == s[i].id
    ensures UniqueIds(s) ==> UniqueIds(Rewrite(s, id, ch))
  {
  }

  /**
   * A lookup after a rewrite: the rewritten id is found at the same place
   * with the change applied, every other id is found unchanged.
   */
  lemma {:induction false} FindAfterRewrite(s: seq<Order>, id: string, ch: Change, key: string)
    ensures FindById(Rewrite(s, id, ch), key) ==
      match FindById(s, key)
      case None => None
      case Some(o) => if key == id then Some(Apply(o, ch)) else Some(o)
    decreases |s|
  {
    if s != [] {
      var r := Rewrite(s, id, ch);
      assert r[1..] == Rewrite(s[1..], id, ch);
      FindAfterRewrite(s[1..], id, ch, key);
    }
  }

  /** A later review replaces an earlier one on the same orders (last write wins, nothing is appended). */
  lemma {:induction false} ReviewLastWriteWins(s: seq<Order>, id: string, first: Review, second: Review)
    ensures Rewrite(Rewrite(s, id, SetReview(first)), id, SetReview(second)) == Rewrite(s, id, SetReview(second))
  {
    var once := Rewrite(s, id, SetReview(first));
    var twice := Rewrite(once, id, SetReview(second));
    var direct := Rewrite(s, id, SetReview(second));
    forall i | 0 <= i < |s|
      ensures twice[i] == direct[i]
    {
      assert once[i].id == s[i].id;
    }
  }

  /** Under unique ids a rewrite changes at most the one order that carries the id. */
  lemma RewriteTouchesOneOrder(s: seq<Order>, id: string, ch: Change, i: int, j: int)
    requires UniqueIds(s)
    requires 0 <= i < |s| && 0 <= j < |s|
    requires Rewrite(s, id, ch)[i] != s[i] && Rewrite(s, id, ch)[j] != s[j]
    ensures i == j
  {
  }

  /**
   * Scenario of the ledger: an order created with a fresh id is then found by
   * that id, pending and unpaid, and ids stay unique.
   */
  lemma CreatedOrderIsFound(s: seq<Order>, data: OrderData, id: string, now: int)
    requires UniqueIds(s) && !HasId(s, id)
    ensures UniqueIds(s + [NewOrder(data, id, now)])
    ensures FindById(s + [NewOrder(data, id, now)], id) == Some(NewOrder(data, id, now))
    ensures NewOrder(data, id, now).status == Pending && NewOrder(data, id, now).paymentStatus == PaymentPending
  {
    FindByIdAppend(s, NewOrder(data, id, now), id);
  }

  /** `getUserOrders` after `createOrder`: the owner's list grows by the new order at its end, other lists do not change. */
  lemma UserOrdersAfterCreate(s: seq<Order>, data: OrderData, id: string, now: int, userId: string)
    ensures Filter(s + [NewOrder(data, id, now)], OwnedBy(userId)) ==
      Filter(s, OwnedBy(userId)) + (if data.userId == userId then [NewOrder(data, id, now)] else [])
  {
    FilterAppend(s, [NewOrder(data, id, now)], OwnedBy(userId));
    assert [NewOrder(data, id, now)][..0] == [];
  }

  // ---------------------------------------------------------------------------
  // The provider's state

  /** The order provider: `orders` is the state it replaces on every mutation. */
  class OrderStore {
    var orders: seq<Order>

    constructor ()
      ensures orders == []
    {
      orders := [];
    }

    /** `createOrder`: appends one pending, unpaid, unreviewed order and returns its id. */
    method CreateOrder(data: OrderData, id: string, now: int) returns (orderId: string)
      modifies this
      ensures orders == old(orders) + [NewOrder(data, id, now)]
      ensures orderId == id
      ensures var o := orders[|orders| - 1];
        && o.id == id && o.userId == data.userId && o.service == data.service
        && o.details == data.details && o.address == data.address
        && o.date == data.date && o.time == data.time && o.price == data.price
        && o.status == Pending && o.paymentStatus == PaymentPending && o.createdAt == now
        && o.partnerId == None && o.partnerName == None && o.review == None
    {
      var o := NewOrder(data, id, now);
      orders := orders + [o];
      orderId := o.id;
    }

    /**
     * `updateOrderStatus`: on every order carrying `orderId` sets the status and
     * both partner fields (an omitted partner argument is `None` and clears the
     * field); every other field and every other order is kept.
     */
    method UpdateOrderStatus(orderId: string, status: Status, partnerId: Option<string>, partnerName: Option<string>)
      modifies this
      ensures orders == Rewrite(old(orders), orderId, SetStatus(status, partnerId, partnerName))
      ensures |orders| == |old(orders)|
      ensures forall i :: 0 <= i < |orders| ==>
        orders[i] == if old(orders)[i].id == orderId
                     then old(orders)[i].(status := status, partnerId := partnerId, partnerName := partnerName)
                     else old(orders)[i]
    {
      orders := Rewrite(orders, orderId, SetStatus(status, partnerId, partnerName));
    }

    /** `updatePaymentStatus`: sets only the payment status of every order carrying `orderId`. */
    method UpdatePaymentStatus(orderId: string, status: PaymentStatus)
      modifies this
      ensures orders == Rewrite(old(orders), orderId, SetPayment(status))
      ensures |orders| == |old(orders)|
      ensures forall i :: 0 <= i < |orders| ==>
        orders[i] == if old(orders)[i].id == orderId then old(orders)[i].(paymentStatus := status) else old(orders)[i]
    {
      orders := Rewrite(orders, orderId, SetPayment(status));
    }

    /**
     * `addReview`: attaches `{rating, comment}` to every order carrying
     * `orderId`, whatever its status and whether or not it already has a
     * review; the rating is not range-checked.
     */
    method AddReview(orderId: string, rating: int, comment: string)
      modifies this
      ensures orders == Rewrite(old(orders), orderId, SetReview(Review(rating, comment)))
      ensures |orders| == |old(orders)|
      ensures forall i :: 0 <= i < |orders| ==>
        orders[i] == if old(orders)[i].id == orderId
                     then old(orders)[i].(review := Some(Review(rating, comment)))
                     else old(orders)[i]
    {
      orders := Rewrite(orders, orderId, SetReview(Review(rating, comment)));
    }
  }
}
