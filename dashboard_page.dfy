/**
 * The user's dashboard: its guard, the first orders of the user's list, the
 * per-status counts and the mean rating, and its status text.
 */
module DashboardPage {
  import opened Wrappers
  import opened Routes
  import opened AuthContext
  import opened OrderContext
  import opened OrderStats
  import OrderTracking

  /** Without a user the page goes to the login page; an administrator goes to the admin page. */
  function Guard(user: Option<User>): (out: Outcome)
    ensures user.None? ==> out == Redirect("/login")
    ensures user.Some? && user.value.role == Admin ==> out == Redirect("/admin")
    ensures out == Render <==> user.Some? && user.value.role != Admin
  {
    if user.None? then Redirect("/login")
    else if user.value.role == Admin then Redirect("/admin")
    else Render
  }

  /**
   * `recentOrders = userOrders.slice(0, 3)`: the first (at most three) of the
   * user's orders in ledger order, that is the oldest ones, not the newest.
   */
  function RecentOrders(orders: seq<Order>, userId: string): (r: seq<Order>)
    ensures var mine := Filter(orders, OwnedBy(userId));
      && |r| == (if |mine| < 3 then |mine| else 3)
      && r <= mine
    ensures forall o :: o in r ==> o in orders && o.userId == userId
  {
    var mine := Filter(orders, OwnedBy(userId));
    var n := if |mine| < 3 then |mine| else 3;
    assert forall o :: o in mine[..n] ==> o in mine;
    mine[..n]
  }

  /** `s` is ordered by creation instant, oldest first (the order a ledger has when the clock only moves forward). */
  predicate OldestFirst(s: seq<Order>)
  {
    forall i, j :: 0 <= i < j < |s| ==> s[i].createdAt <= s[j].createdAt
  }

  /** A filtered list keeps an oldest-first order. */
  lemma {:induction false} FilterKeepsOldestFirst(s: seq<Order>, c: Criterion)
    requires OldestFirst(s)
    ensures OldestFirst(Filter(s, c))
    decreases |s|
  {
    if s != [] {
      var init, last := s[..|s| - 1], s[|s| - 1];
      assert OldestFirst(init) by {
        forall i, j | 0 <= i < j < |init|
          ensures init[i].createdAt <= init[j].createdAt
        {
          assert init[i] == s[i] && init[j] == s[j];
        }
      }
      FilterKeepsOldestFirst(init, c);
      var f := Filter(init, c);
      if Holds(c, last) {
        var r := f + [last];
        forall i, j | 0 <= i < j < |r|
          ensures r[i].createdAt <= r[j].createdAt
        {
          if j < |f| {
            assert r[i] == f[i] && r[j] == f[j];
          } else {
            assert r[i] == f[i] && f[i] in init;
            var k :| 0 <= k < |init| && init[k] == f[i];
            assert s[k] == f[i];
          }
        }
      }
    }
  }

  /**
   * When the ledger is oldest first, the dashboard's "recent" orders are the
   * user's OLDEST orders: none of them is newer than any order left out.
   */
  lemma RecentAreOldest(orders: seq<Order>, userId: string)
    requires OldestFirst(orders)
    ensures var mine, r := Filter(orders, OwnedBy(userId)), RecentOrders(orders, userId);
      forall i, j :: 0 <= i < |r| <= j < |mine| ==> r[i].createdAt <= mine[j].createdAt
  {
    FilterKeepsOldestFirst(orders, OwnedBy(userId));
  }

  /**
   * Four orders of one user, booked one after another: the panel headed
   * "Pesanan Terbaru" (latest orders) shows the first three and leaves out
   * the newest.
   */
  lemma RecentOmitsNewest(s: seq<Order>, userId: string)
    requires |s| == 4 && forall o :: o in s ==> o.userId == userId
    requires s[0].createdAt < s[1].createdAt < s[2].createdAt < s[3].createdAt
    ensures RecentOrders(s, userId) == s[..3]
    ensures s[3] !in RecentOrders(s, userId)
  {
    FilterKeepsAll(s, OwnedBy(userId));
    var r := s[..3];
    forall o | o in r
      ensures o.createdAt < s[3].createdAt
    {
      var i :| 0 <= i < 3 && r[i] == o;
      assert o == s[i];
    }
  }

  /**
   * The panel as its heading intends: the user's (at most) three NEWEST
   * orders, newest first. None of the user's orders left out is newer than
   * any order shown.
   */
  function LatestOrders(orders: seq<Order>, userId: string): (r: seq<Order>)
    ensures var mine := Filter(orders, OwnedBy(userId));
      && |r| == (if |mine| < 3 then |mine| else 3)
      && multiset(r) <= multiset(mine)
      && OrderTracking.NewestFirst(r)
      && forall o, x :: o in r && x in multiset(mine) - multiset(r) ==> o.createdAt >= x.createdAt
  {
    var sorted := OrderTracking.TrackedOrders(orders, userId);
    var n := if |sorted| < 3 then |sorted| else 3;
    NewestPrefix(sorted, n);
    sorted[..n]
  }

  /** A prefix of a newest-first list is newest first, and no order after it is newer than any order in it. */
  lemma NewestPrefix(sorted: seq<Order>, n: int)
    requires OrderTracking.NewestFirst(sorted) && 0 <= n <= |sorted|
    ensures multiset(sorted[..n]) <= multiset(sorted)
    ensures OrderTracking.NewestFirst(sorted[..n])
    ensures forall o, x :: o in sorted[..n] && x in multiset(sorted) - multiset(sorted[..n]) ==> o.createdAt >= x.createdAt
  {
    var r, rest := sorted[..n], sorted[n..];
    assert sorted == r + rest;
    assert multiset(sorted) == multiset(r) + multiset(rest);
    forall o, x | o in r && x in multiset(sorted) - multiset(r)
      ensures o.createdAt >= x.createdAt
    {
      var i :| 0 <= i < |r| && r[i] == o;
      assert x in multiset(rest);
      assert x in rest;
      var j :| 0 <= j < |rest| && rest[j] == x;
      assert sorted[i] == o && sorted[n + j] == x;
    }
    assert OrderTracking.NewestFirst(r) by {
      forall i, j | 0 <= i < j < |r|
        ensures r[i].createdAt >= r[j].createdAt
      {
        assert r[i] == sorted[i] && r[j] == sorted[j];
      }
    }
  }

  /** The dashboard's figures. */
  datatype Summary = Summary(totalOrders: nat, inProcess: nat, completed: nat, averageRating: real)

  /**
   * The figures over the user's orders: "in process" counts pending, assigned
   * and in-progress orders, "completed" the completed ones, so together they
   * are at most the total; the rating is the mean over the user's reviewed
   * orders.
   */
  function Figures(orders: seq<Order>, userId: string): (f: Summary)
    ensures f.totalOrders == |Filter(orders, OwnedBy(userId))|
    ensures f.inProcess + f.completed <= f.totalOrders
    ensures f.averageRating == AverageRating(Filter(orders, OwnedBy(userId)))
  {
    var mine := Filter(orders, OwnedBy(userId));
    CountDisjointStatuses(mine, {Pending, Assigned, InProgress}, {Completed});
    assert |Filter(mine, StatusIn({Pending, Assigned, InProgress} + {Completed}))| <= |mine|;
    Summary(
      |mine|,
      Count(mine, StatusIn({Pending, Assigned, InProgress})),
      Count(mine, StatusIn({Completed})),
      AverageRating(mine))
  }

  /** The dashboard's status text; an unknown string is shown as it is. */
  function StatusText(status: string): (text: string)
    ensures ParseStatus(status).None? ==> text == status
    ensures ParseStatus(status).Some? ==> text != status
  {
    if status == "pending" then "Menunggu"
    else if status == "assigned" then "Ditugaskan"
    else if status == "in_progress" then "Sedang Diproses"
    else if status == "completed" then "Selesai"
    else if status == "cancelled" then "Dibatalkan"
    else status
  }
}
