/**
 * The review page: the guards that decide whether a review form is shown for
 * an order, and the form whose submit attaches the review.
 */
module ReviewPage {
  import opened Wrappers
  import opened AuthContext
  import opened OrderContext

  /** Where the page goes: the login page, the tracking page, or the form for an order. */
  datatype Gate = ToLogin | ToTracking | ShowForm(order: Order)

  /**
   * The page's guards in order: no user or no order id goes to the login
   * page; an unknown order, someone else's order, an order not completed or
   * an order already reviewed goes to the tracking page; otherwise the form
   * is shown for the (first) order carrying the id.
   */
  function Guard(user: Option<User>, orderId: Option<string>, orders: seq<Order>): (g: Gate)
    ensures g == ToLogin <==> user.None? || orderId.None?
    ensures g.ShowForm? <==>
      user.Some? && orderId.Some? && FindById(orders, orderId.value).Some?
      && FindById(orders, orderId.value).value.userId == user.value.id
      && ReviewOffered(FindById(orders, orderId.value).value)
    ensures g.ShowForm? ==>
      && g.order.id == orderId.value && g.order.userId == user.value.id
      && g.order.status == Completed && g.order.review.None?
  {
    if user.None? || orderId.None? then ToLogin
    else
      match FindById(orders, orderId.value)
      case None => ToTracking
      case Some(o) =>
        if o.userId != user.value.id then ToTracking
        else if o.status != Completed || o.review.Some? then ToTracking
        else ShowForm(o)
  }

  /**
   * Once a review is attached through the page, the page never shows the
   * form for that order again: a review is added at most once.
   */
  lemma NoSecondReview(user: Option<User>, orderId: string, orders: seq<Order>, rv: Review)
    ensures !Guard(user, Some(orderId), Rewrite(orders, orderId, SetReview(rv))).ShowForm?
  {
    var after := Rewrite(orders, orderId, SetReview(rv));
    FindAfterRewrite(orders, orderId, SetReview(rv), orderId);
    var before, found := FindById(orders, orderId), FindById(after, orderId);
    if before.Some? {
      assert found == Some(Apply(before.value, SetReview(rv)));
    } else {
      assert found == None;
    }
  }

  /** The stars the form offers. */
  const Stars: seq<int> := [1, 2, 3, 4, 5]

  /** The form's local state: the chosen rating (0 until a star is clicked), the comment and the loading flag. */
  class ReviewForm {
    var rating: int
    var comment: string
    var loading: bool

    /** A chosen rating is one of the stars; the initial 0 means none chosen. */
    ghost predicate Valid()
      reads this
    {
      rating == 0 || rating in Stars
    }

    constructor ()
      ensures Valid() && rating == 0 && comment == "" && !loading
    {
      rating := 0;
      comment := "";
      loading := false;
    }

    /** Clicking star `star`. */
    method SelectStar(star: int)
      requires star in Stars
      modifies this
      ensures Valid() && rating == star && comment == old(comment) && loading == old(loading)
    {
      rating := star;
    }

    method SetComment(text: string)
      modifies this
      ensures comment == text && rating == old(rating) && loading == old(loading)
    {
      comment := text;
    }

    /** The submit button is disabled while no star is chosen or a submission is loading. */
    function SubmitEnabled(): (enabled: bool)
      reads this
      ensures enabled <==> rating != 0 && !loading
      ensures enabled && Valid() ==> 1 <= rating <= 5
    {
      rating != 0 && !loading
    }

    /**
     * `handleSubmit`: with no star chosen nothing happens; otherwise
     * `addReview(orderId, rating, comment)` with exactly the chosen values,
     * then navigation to the tracking page, with loading off afterwards.
     */
    method Submit(store: OrderStore, orderId: string) returns (nav: Option<string>)
      requires Valid()
      modifies this, store
      ensures Valid() && rating == old(rating) && comment == old(comment)
      ensures old(rating) == 0 ==> nav == None && store.orders == old(store.orders) && loading == old(loading)
      ensures old(rating) != 0 ==>
        && nav == Some("/track-order")
        && !loading
        && 1 <= old(rating) <= 5
        && store.orders == Rewrite(old(store.orders), orderId, SetReview(Review(old(rating), old(comment))))
    {
      if rating == 0 {
        nav := None;
        return;
      }
      loading := true;
      store.AddReview(orderId, rating, comment);
      nav := Some("/track-order");
      loading := false;
    }
  }
}
