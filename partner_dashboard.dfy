/**
 * The partner's dashboard: its guard, the orders it lists, the restricted
 * status control and its statistics.
 */
module PartnerDashboard {
  import opened Wrappers
  import opened Routes
  import opened AuthContext
  import opened OrderContext
  import opened OrderStats

  const PartnerId: string := "partner-1"
  const PartnerName: string := "Mitra Express Jakarta"

  /** Only a partner sees the page; anyone else is sent to the login page. */
  function Guard(user: Option<User>): (out: Outcome)
    ensures out == Render <==> user.Some? && user.value.role == Partner
    ensures out != Render ==> out == Redirect("/login")
  {
    if user.None? || user.value.role != Partner then Redirect("/login") else Render
  }

  /**
   * `partnerOrders`: the orders carrying partner id "partner-1" or in status
   * assigned (whoever they are assigned to), in ledger order.
   */
  function PartnerOrders(orders: seq<Order>): (r: seq<Order>)
    ensures forall o :: o in r <==> o in orders && (o.partnerId == Some(PartnerId) || o.status == Assigned)
  {
    Filter(orders, PartnerVisible(PartnerId))
  }

  /** The partner's list keeps ledger order: the list of a concatenation is the concatenation of the lists. */
  lemma PartnerOrdersInLedgerOrder(a: seq<Order>, b: seq<Order>)
    ensures PartnerOrders(a + b) == PartnerOrders(a) + PartnerOrders(b)
  {
    FilterAppend(a, b, PartnerVisible(PartnerId));
  }

  /**
   * The targets the status control offers for `o`: none unless the order is
   * assigned or in progress, and then exactly assigned, in progress and
   * completed, so a partner can neither cancel, nor reset to pending, nor
   * touch a completed order.
   */
  function StatusTargets(o: Order): (targets: seq<Status>)
    ensures targets != [] <==> o.status == Assigned || o.status == InProgress
    ensures forall t :: t in targets ==> t == Assigned || t == InProgress || t == Completed
    ensures targets != [] ==> Completed in targets && InProgress in targets
  {
    if o.status == Assigned || o.status == InProgress then [Assigned, InProgress, Completed] else []
  }

  /** The ledger after `handleStatusChange`: the new status with partner "partner-1" named "Mitra Express Jakarta". */
  function PartnerChange(s: seq<Order>, orderId: string, newStatus: Status): seq<Order>
  {
    Rewrite(s, orderId, SetStatus(newStatus, Some(PartnerId), Some(PartnerName)))
  }

  method HandleStatusChange(store: OrderStore, orderId: string, newStatus: Status)
    modifies store
    ensures store.orders == PartnerChange(old(store.orders), orderId, newStatus)
  {
    store.UpdateOrderStatus(orderId, newStatus, Some(PartnerId), Some(PartnerName));
  }

  /**
   * The partner change never touches payment or review, and every order it
   * rewrites stays on the partner's list afterwards.
   */
  lemma PartnerChangeEffect(s: seq<Order>, orderId: string, newStatus: Status)
    ensures |PartnerChange(s, orderId, newStatus)| == |s|
    ensures forall i :: 0 <= i < |s| ==>
      var r := PartnerChange(s, orderId, newStatus)[i];
      r.paymentStatus == s[i].paymentStatus && r.review == s[i].review
    ensures forall i :: 0 <= i < |s| && s[i].id == orderId ==>
      PartnerChange(s, orderId, newStatus)[i] in PartnerOrders(PartnerChange(s, orderId, newStatus))
  {
  }

  /** The assigned, in-progress and completed counts of a list add up to at most its length. */
  lemma WorkCountsWithinTotal(s: seq<Order>)
    ensures Count(s, StatusIn({Assigned})) + Count(s, StatusIn({InProgress})) + Count(s, StatusIn({Completed})) <= |s|
  {
    CountDisjointStatuses(s, {Assigned}, {InProgress});
    assert {Assigned} + {InProgress} == {Assigned, InProgress};
    CountDisjointStatuses(s, {Assigned, InProgress}, {Completed});
    assert {Assigned, InProgress} + {Completed} == {Assigned, InProgress, Completed};
    assert |Filter(s, StatusIn({Assigned, InProgress, Completed}))| <= |s|;
  }

  /** `totalEarnings`: the 80% commission summed over the completed orders, paid or not. */
  function Earnings(mine: seq<Order>): (e: real)
    ensures e == 0.8 * SumPrice(Filter(mine, StatusIn({Completed}))) as real
  {
    ShareOfSum(Filter(mine, StatusIn({Completed})), 0.8);
    Share(Filter(mine, StatusIn({Completed})), 0.8)
  }

  /** The dashboard's figures. */
  datatype PartnerStats = PartnerStats(
    totalOrders: nat,
    assignedOrders: nat,
    inProgressOrders: nat,
    completedOrders: nat,
    totalEarnings: real,
    averageRating: real)

  /**
   * `stats`, all over `partnerOrders`: the three status counts are disjoint
   * and together at most the total; earnings are four fifths of the prices of
   * the completed partner orders whatever their payment status; the rating is
   * the mean over reviewed partner orders.
   */
  function Stats(orders: seq<Order>): (st: PartnerStats)
    ensures st.totalOrders == |PartnerOrders(orders)|
    ensures st.assignedOrders + st.inProgressOrders + st.completedOrders <= st.totalOrders
    ensures st.totalEarnings == 0.8 * SumPrice(Filter(PartnerOrders(orders), StatusIn({Completed}))) as real
    ensures st.averageRating == AverageRating(PartnerOrders(orders))
  {
    var mine := PartnerOrders(orders);
    WorkCountsWithinTotal(mine);
    PartnerStats(
      |mine|,
      Count(mine, StatusIn({Assigned})),
      Count(mine, StatusIn({InProgress})),
      Count(mine, StatusIn({Completed})),
      Earnings(mine),
      AverageRating(mine))
  }
}
