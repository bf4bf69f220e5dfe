/**
 * The administrator's dashboard: its guard, its status control (which can
 * move any order to any status, forces payment on assignment and always
 * names partner "partner-1") and its statistics.
 */
module DashboardAdmin {
  import opened Wrappers
  import opened Routes
  import opened AuthContext
  import opened OrderContext
  import opened OrderStats

  const AssignedPartnerId: string := "partner-1"
  const AssignedPartnerName: string := "Mitra Express Jakarta"

  /** Only an administrator sees the page; anyone else is sent to the login page. */
  function Guard(user: Option<User>): (out: Outcome)
    ensures out == Render <==> user.Some? && user.value.role == Admin
    ensures out != Render ==> out == Redirect("/login")
  {
    if user.None? || user.value.role != Admin then Redirect("/login") else Render
  }

  /**
   * The ledger after `handleStatusChange(orderId, newStatus)`: first
   * `updateOrderStatus` with partner "partner-1" (named only on assignment,
   * '' otherwise), then, on assignment only, `updatePaymentStatus(paid)`.
   */
  function AdminChange(s: seq<Order>, orderId: string, newStatus: Status): seq<Order>
  {
    var name := if newStatus == Assigned then AssignedPartnerName else "";
    var afterStatus := Rewrite(s, orderId, SetStatus(newStatus, Some(AssignedPartnerId), Some(name)));
    if newStatus == Assigned then Rewrite(afterStatus, orderId, SetPayment(Paid)) else afterStatus
  }

  /** The two ledger mutations the handler issues, in sequence. */
  method HandleStatusChange(store: OrderStore, orderId: string, newStatus: Status)
    modifies store
    ensures store.orders == AdminChange(old(store.orders), orderId, newStatus)
  {
    var partnerName := "";
    if newStatus == Assigned {
      partnerName := AssignedPartnerName;
    }
    store.UpdateOrderStatus(orderId, newStatus, Some(AssignedPartnerId), Some(partnerName));
    if newStatus == Assigned {
      store.UpdatePaymentStatus(orderId, Paid);
    }
  }

  /**
   * What the admin change does to each order: any of the five statuses is
   * accepted whatever the current one; every order carrying the id gets the
   * new status, partner id "partner-1", the partner name only on assignment
   * (cleared to '' otherwise) and, on assignment only, payment `Paid`; nothing
   * else changes.
   */
  lemma AdminChangeEffect(s: seq<Order>, orderId: string, newStatus: Status)
    ensures |AdminChange(s, orderId, newStatus)| == |s|
    ensures forall i :: 0 <= i < |s| && s[i].id != orderId ==> AdminChange(s, orderId, newStatus)[i] == s[i]
    ensures forall i :: 0 <= i < |s| && s[i].id == orderId ==>
      AdminChange(s, orderId, newStatus)[i] == s[i].(
        status := newStatus,
        partnerId := Some(AssignedPartnerId),
        partnerName := Some(if newStatus == Assigned then AssignedPartnerName else ""),
        paymentStatus := if newStatus == Assigned then Paid else s[i].paymentStatus)
  {
    var name := if newStatus == Assigned then AssignedPartnerName else "";
    var afterStatus := Rewrite(s, orderId, SetStatus(newStatus, Some(AssignedPartnerId), Some(name)));
    RewriteKeepsIds(s, orderId, SetStatus(newStatus, Some(AssignedPartnerId), Some(name)));
  }

  /**
   * Scenario: after the administrator assigns an order, looking it up shows
   * status assigned, payment paid and the partner's name.
   */
  lemma AssignThenLookup(s: seq<Order>, orderId: string)
    requires HasId(s, orderId)
    ensures var found := FindById(AdminChange(s, orderId, Assigned), orderId);
      found.Some? && found.value.status == Assigned && found.value.paymentStatus == Paid
      && found.value.partnerName == Some(AssignedPartnerName)
  {
    var ch := SetStatus(Assigned, Some(AssignedPartnerId), Some(AssignedPartnerName));
    FindAfterRewrite(s, orderId, ch, orderId);
    FindAfterRewrite(Rewrite(s, orderId, ch), orderId, SetPayment(Paid), orderId);
  }

  /** `totalRevenue`: the platform's 20% share summed over the paid orders, whatever their status; 0 when none is paid. */
  function Revenue(orders: seq<Order>): (revenue: real)
    ensures revenue == 0.2 * SumPrice(Filter(orders, IsPaid)) as real
    ensures Count(orders, IsPaid) == 0 ==> revenue == 0.0
  {
    ShareOfSum(Filter(orders, IsPaid), 0.2);
    Share(Filter(orders, IsPaid), 0.2)
  }

  /** The dashboard's figures. */
  datatype AdminStats = AdminStats(
    totalOrders: nat,
    pendingOrders: nat,
    inProgressOrders: nat,
    completedOrders: nat,
    totalRevenue: real,
    averageRating: real)

  /**
   * `stats`: the pending, in-progress (assigned or in progress) and completed
   * counts are disjoint and, with the cancelled count, make up the total;
   * revenue is a fifth of the prices of the paid orders (0 when none is paid);
   * the rating is the mean over reviewed orders.
   */
  function Stats(orders: seq<Order>): (st: AdminStats)
    ensures st.totalOrders == |orders|
    ensures st.pendingOrders + st.inProgressOrders + st.completedOrders + Count(orders, StatusIn({Cancelled}))
            == st.totalOrders
    ensures st.pendingOrders + st.inProgressOrders + st.completedOrders <= st.totalOrders
    ensures st.totalRevenue == Revenue(orders)
    ensures st.averageRating == AverageRating(orders)
  {
    CountDisjointStatuses(orders, {Pending}, {Assigned, InProgress});
    assert {Pending} + {Assigned, InProgress} == {Pending, Assigned, InProgress};
    CountDisjointStatuses(orders, {Pending, Assigned, InProgress}, {Completed});
    assert {Pending, Assigned, InProgress} + {Completed} == {Pending, Assigned, InProgress, Completed};
    CountDisjointStatuses(orders, {Pending, Assigned, InProgress, Completed}, {Cancelled});
    assert {Pending, Assigned, InProgress, Completed} + {Cancelled}
        == {Pending, Assigned, InProgress, Completed, Cancelled};
    CountAllStatuses(orders);
    AdminStats(
      |orders|,
      Count(orders, StatusIn({Pending})),
      Count(orders, StatusIn({Assigned, InProgress})),
      Count(orders, StatusIn({Completed})),
      Revenue(orders),
      AverageRating(orders))
  }
}
