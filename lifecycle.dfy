/**
 * The order lifecycle as the views drive it. The ledger itself accepts any
 * change; the rules live in the views: booking appends a pending order, the
 * administrator may set any status (assignment also marks the order paid),
 * the partner may only move an order shown with its status control, and the
 * owner may review a completed, unreviewed order once with 1..5 stars. This
 * module states what those rules, taken together, keep true of the ledger.
 */
module Lifecycle {
  import opened Wrappers
  import opened AuthContext
  import opened OrderContext
  import opened OrderStats
  import DashboardAdmin
  import PartnerDashboard
  import ReviewPage

  /** One user action that changes the ledger, through the view that issues it. */
  datatype ViewAction =
    | Book(data: OrderData, id: string, now: int)
    | AdminSet(orderId: string, status: Status)
    | PartnerSet(orderId: string, status: Status)
    | SubmitReview(orderId: string, rating: int, comment: string)

  /** The ledger after the action. */
  function Step(s: seq<Order>, a: ViewAction): seq<Order>
  {
    match a
    case Book(data, id, now) => s + [NewOrder(data, id, now)]
    case AdminSet(id, st) => DashboardAdmin.AdminChange(s, id, st)
    case PartnerSet(id, st) => PartnerDashboard.PartnerChange(s, id, st)
    case SubmitReview(id, rating, comment) => Rewrite(s, id, SetReview(Review(rating, comment)))
  }

  /**
   * When the views let the action happen: the partner's control exists only
   * on a listed order in status assigned or in progress and offers only its
   * targets; the review form exists only for a completed, unreviewed order
   * and submits only a chosen star. Booking and the admin control are always
   * available.
   */
  predicate Enabled(s: seq<Order>, a: ViewAction)
  {
    match a
    case Book(_, _, _) => true
    case AdminSet(_, _) => true
    case PartnerSet(id, st) =>
      var found := FindById(s, id);
      found.Some? && found.value in PartnerDashboard.PartnerOrders(s)
      && st in PartnerDashboard.StatusTargets(found.value)
    case SubmitReview(id, rating, _) =>
      var found := FindById(s, id);
      found.Some? && ReviewOffered(found.value) && rating in ReviewPage.Stars
  }

  /** No enabled action ever puts a rating outside 1..5 into the ledger. */
  lemma StepKeepsRatingsInRange(s: seq<Order>, a: ViewAction)
    requires RatingsInRange(s) && Enabled(s, a)
    ensures RatingsInRange(Step(s, a))
  {
    match a
    case Book(data, id, now) =>
      AppendKeepsRatings(s, NewOrder(data, id, now));
    case AdminSet(id, st) =>
      DashboardAdmin.AdminChangeEffect(s, id, st);
      SameReviewsKeepRatings(s, Step(s, a));
    case PartnerSet(id, st) =>
      PartnerDashboard.PartnerChangeEffect(s, id, st);
      SameReviewsKeepRatings(s, Step(s, a));
    case SubmitReview(id, rating, comment) =>
      assert rating in ReviewPage.Stars;
      ReviewKeepsRatings(s, id, Review(rating, comment));
  }

  /** Appending an unreviewed order keeps ratings in 1..5. */
  lemma AppendKeepsRatings(s: seq<Order>, o: Order)
    requires RatingsInRange(s) && o.review.None?
    ensures RatingsInRange(s + [o])
  {
    forall x | x in s + [o] && x.review.Some?
      ensures 1 <= x.review.value.rating <= 5
    {
      assert x in s;
    }
  }

  /** Attaching a review rated 1..5 keeps ratings in 1..5. */
  lemma ReviewKeepsRatings(s: seq<Order>, id: string, rv: Review)
    requires RatingsInRange(s) && 1 <= rv.rating <= 5
    ensures RatingsInRange(Rewrite(s, id, SetReview(rv)))
  {
    var r := Rewrite(s, id, SetReview(rv));
    forall o | o in r && o.review.Some?
      ensures 1 <= o.review.value.rating <= 5
    {
      var i :| 0 <= i < |r| && r[i] == o;
      if s[i].id != id {
        assert s[i] in s;
      }
    }
  }

  /** A ledger whose reviews are those of a ledger with ratings in 1..5, place by place, has ratings in 1..5 too. */
  lemma SameReviewsKeepRatings(s: seq<Order>, r: seq<Order>)
    requires RatingsInRange(s) && |r| == |s|
    requires forall i :: 0 <= i < |s| ==> r[i].review == s[i].review
    ensures RatingsInRange(r)
  {
    forall o | o in r && o.review.Some?
      ensures 1 <= o.review.value.rating <= 5
    {
      var i :| 0 <= i < |r| && r[i] == o;
      assert s[i] in s;
    }
  }

  /**
   * No action takes payment back: every order that was paid is still paid
   * and at the same place, and no order disappears.
   */
  lemma StepKeepsPaid(s: seq<Order>, a: ViewAction)
    ensures |Step(s, a)| >= |s|
    ensures forall i :: 0 <= i < |s| ==> Step(s, a)[i].id == s[i].id
    ensures forall i :: 0 <= i < |s| && s[i].paymentStatus == Paid ==> Step(s, a)[i].paymentStatus == Paid
  {
    match a
    case Book(data, id, now) =>
    case AdminSet(id, st) => DashboardAdmin.AdminChangeEffect(s, id, st);
    case PartnerSet(id, st) => PartnerDashboard.PartnerChangeEffect(s, id, st);
    case SubmitReview(id, rating, comment) =>
  }

  /**
   * Whatever the partner does through the control, every order it changes
   * ends assigned, in progress or completed, with partner "partner-1", and
   * its payment untouched: a partner cannot cancel or reopen an order.
   */
  lemma PartnerStepTargets(s: seq<Order>, id: string, st: Status)
    requires Enabled(s, PartnerSet(id, st))
    ensures var r := Step(s, PartnerSet(id, st));
      forall i :: 0 <= i < |s| && r[i] != s[i] ==>
        && (r[i].status == Assigned || r[i].status == InProgress || r[i].status == Completed)
        && r[i].partnerId == Some(PartnerDashboard.PartnerId)
        && r[i].paymentStatus == s[i].paymentStatus
  {
    PartnerDashboard.PartnerChangeEffect(s, id, st);
  }

  /** Booking with an id no order carries keeps ids unique; every other action keeps ids as they are. */
  lemma StepKeepsUniqueIds(s: seq<Order>, a: ViewAction)
    requires UniqueIds(s)
    requires a.Book? ==> !HasId(s, a.id)
    ensures UniqueIds(Step(s, a))
  {
    match a
    case Book(data, id, now) => CreatedOrderIsFound(s, data, id, now);
    case AdminSet(id, st) =>
      StepKeepsPaid(s, a);
    case PartnerSet(id, st) =>
      StepKeepsPaid(s, a);
    case SubmitReview(id, rating, comment) =>
      RewriteKeepsIds(s, id, SetReview(Review(rating, comment)));
  }

  /**
   * With unique ids, submitting a review changes exactly one order, which
   * was completed and unreviewed and now carries the chosen 1..5 rating: a
   * review is added only after completion, and only once.
   */
  lemma ReviewOnlyOnCompletedOrder(s: seq<Order>, id: string, rating: int, comment: string)
    requires UniqueIds(s) && Enabled(s, SubmitReview(id, rating, comment))
    ensures var r := Step(s, SubmitReview(id, rating, comment));
      forall i :: 0 <= i < |s| && r[i] != s[i] ==>
        && ReviewOffered(s[i])
        && r[i] == s[i].(review := Some(Review(rating, comment)))
        && 1 <= rating <= 5
  {
    var found := FindById(s, id).value;
    var r := Step(s, SubmitReview(id, rating, comment));
    forall i | 0 <= i < |s| && r[i] != s[i]
      ensures ReviewOffered(s[i])
    {
      assert s[i].id == id;
      assert !HasId(s[..i], id) by {
        forall j | 0 <= j < i
          ensures s[..i][j].id != id
        {
          assert s[..i][j] == s[j];
        }
      }
      FindByIdIsFirst(s, id, i);
    }
  }

  /**
   * The review button of the dashboard and of the tracking page leads to the
   * form: for the owner's completed, unreviewed order (ids unique) the review
   * page shows the form for exactly that order.
   */
  lemma ReviewButtonOpensForm(s: seq<Order>, user: User, i: int)
    requires UniqueIds(s) && 0 <= i < |s|
    requires s[i].userId == user.id && ReviewOffered(s[i])
    ensures ReviewPage.Guard(Some(user), Some(s[i].id), s) == ReviewPage.ShowForm(s[i])
  {
    assert !HasId(s[..i], s[i].id) by {
      forall j | 0 <= j < i
        ensures s[..i][j].id != s[i].id
      {
        assert s[..i][j] == s[j];
      }
    }
    FindByIdIsFirst(s, s[i].id, i);
  }

  /**
   * As long as ratings stay in 1..5, every dashboard's mean rating is 0
   * (nothing reviewed) or between 1 and 5.
   */
  lemma MeanRatingsBounded(s: seq<Order>, c: Criterion)
    requires RatingsInRange(s)
    ensures var m := AverageRating(Filter(s, c));
      m == 0.0 || 1.0 <= m <= 5.0
  {
  }
}
