/**
 * The tracking page: the current user's orders, newest first, with the
 * label functions it shows next to each order.
 */
module OrderTracking {
  import opened Wrappers
  import opened Routes
  import opened AuthContext
  import opened OrderContext

  /** Without a user the page goes to the login page. */
  function Guard(user: Option<User>): (out: Outcome)
    ensures out == Render <==> user.Some?
    ensures out != Render ==> out == Redirect("/login")
  {
    if user.None? then Redirect("/login") else Render
  }

  /** `s` is ordered by creation instant, newest first. */
  predicate NewestFirst(s: seq<Order>)
  {
    forall i, j :: 0 <= i < j < |s| ==> s[i].createdAt >= s[j].createdAt
  }

  /** Inserts `o` into a newest-first list, ahead of every order not newer than it. */
  function Insert(o: Order, s: seq<Order>): (r: seq<Order>)
    requires NewestFirst(s)
    ensures NewestFirst(r)
    ensures multiset(r) == multiset(s) + multiset{o}
  {
    if s == [] || s[0].createdAt <= o.createdAt then [o] + s
    else
      var rest := Insert(o, s[1..]);
      assert s == [s[0]] + s[1..];
      NewerThanAll(s[0], o, s[1..], rest);
      [s[0]] + rest
  }

  /** Placing `head` before `rest` keeps the order newest first when `head` is newer than everything in it. */
  lemma NewerThanAll(head: Order, o: Order, tail: seq<Order>, rest: seq<Order>)
    requires NewestFirst([head] + tail) && NewestFirst(rest)
    requires head.createdAt > o.createdAt
    requires multiset(rest) == multiset(tail) + multiset{o}
    ensures NewestFirst([head] + rest)
  {
    var r := [head] + rest;
    forall i, j | 0 <= i < j < |r|
      ensures r[i].createdAt >= r[j].createdAt
    {
      if i > 0 {
        assert r[i] == rest[i - 1] && r[j] == rest[j - 1];
      } else {
        var x := rest[j - 1];
        assert r[0] == head && r[j] == x;
        assert x in multiset(rest);
        if x != o {
          assert x in multiset(tail);
          assert x in tail;
          var k :| 0 <= k < |tail| && tail[k] == x;
          var whole := [head] + tail;
          assert whole[0] == head && whole[k + 1] == x;
        }
      }
    }
  }

  /**
   * `sort((a, b) => b.createdAt - a.createdAt)`: the same orders, newest
   * first.
   */
  function SortNewestFirst(s: seq<Order>): (r: seq<Order>)
    ensures NewestFirst(r)
    ensures multiset(r) == multiset(s)
  {
    if s == [] then []
    else
      assert s == [s[0]] + s[1..];
      Insert(s[0], SortNewestFirst(s[1..]))
  }

  /**
   * `userOrders`: exactly the current user's orders (a permutation of what
   * `getUserOrders` returns), newest first.
   */
  function TrackedOrders(orders: seq<Order>, userId: string): (r: seq<Order>)
    ensures NewestFirst(r)
    ensures multiset(r) == multiset(Filter(orders, OwnedBy(userId)))
    ensures forall o :: o in r <==> o in orders && o.userId == userId
  {
    var mine := Filter(orders, OwnedBy(userId));
    var r := SortNewestFirst(mine);
    assert forall o :: o in r <==> o in mine by {
      forall o
        ensures o in r <==> o in mine
      {
        assert o in r <==> o in multiset(r);
        assert o in mine <==> o in multiset(mine);
      }
    }
    r
  }

  /** The review action is offered exactly for completed orders without a review. */
  function ShowReviewAction(o: Order): (shown: bool)
    ensures shown <==> o.status == Completed && o.review.None?
  {
    ReviewOffered(o)
  }

  /** The payment badge. */
  function PaymentLabel(p: PaymentStatus): (badge: string)
    ensures badge == "Dibayar" <==> p == Paid
    ensures p != Paid ==> badge == "Menunggu Pembayaran"
  {
    if p == Paid then "Dibayar" else "Menunggu Pembayaran"
  }

  /** The status text, switched on the status string; an unknown string is shown as it is. */
  function StatusText(status: string): (text: string)
    ensures ParseStatus(status).None? ==> text == status
    ensures ParseStatus(status).Some? ==> text != status
  {
    if status == "pending" then "Menunggu Konfirmasi"
    else if status == "assigned" then "Mitra Ditugaskan"
    else if status == "in_progress" then "Sedang Diproses"
    else if status == "completed" then "Selesai"
    else if status == "cancelled" then "Dibatalkan"
    else status
  }

  /** The status description; empty exactly for a string that is not one of the five statuses. */
  function StatusDescription(status: string): (text: string)
    ensures text == "" <==> ParseStatus(status).None?
  {
    if status == "pending" then "Pesanan Anda sedang menunggu konfirmasi dari admin"
    else if status == "assigned" then "Mitra layanan telah ditugaskan untuk pesanan Anda"
    else if status == "in_progress" then "Mitra sedang mengerjakan layanan Anda"
    else if status == "completed" then "Layanan telah selesai dikerjakan"
    else if status == "cancelled" then "Pesanan telah dibatalkan"
    else ""
  }
}
