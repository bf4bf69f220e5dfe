/**
 * The folds the three dashboards compute over a list of orders: sums of
 * prices, a percentage share of them (the `reduce((sum, o) => sum + o.price *
 * rate, 0)` idiom), and the mean rating over reviewed orders. Shares and means
 * are exact reals.
 */
module OrderStats {
  import opened Wrappers
  import opened OrderContext

  /** The sum of the prices of `s`. */
  function SumPrice(s: seq<Order>): int
  {
    if s == [] then 0 else SumPrice(s[..|s| - 1]) + s[|s| - 1].price
  }

  /** `s.reduce((sum, o) => sum + o.price * rate, 0)`, folded from the left. */
  function Share(s: seq<Order>, rate: real): real
  {
    if s == [] then 0.0 else Share(s[..|s| - 1], rate) + s[|s| - 1].price as real * rate
  }

  /** Adding up each order's share is taking the share of the total price. */
  lemma {:induction false} ShareOfSum(s: seq<Order>, rate: real)
    ensures Share(s, rate) == rate * SumPrice(s) as real
    decreases |s|
  {
    if s != [] {
      ShareOfSum(s[..|s| - 1], rate);
    }
  }

  /** The rating an order contributes to a mean: `o.review?.rating || 0`. */
  function RatingOf(o: Order): int
  {
    match o.review
    case Some(rv) => rv.rating
    case None => 0
  }

  /** The sum of the ratings of `s`. */
  function RatingSum(s: seq<Order>): int
  {
    if s == [] then 0 else RatingSum(s[..|s| - 1]) + RatingOf(s[|s| - 1])
  }

  /** Every review in `s` has a rating in 1..5, the range the review form offers. */
  predicate RatingsInRange(s: seq<Order>)
  {
    forall o :: o in s && o.review.Some? ==> 1 <= o.review.value.rating <= 5
  }

  /** The sum of `n` reviewed ratings within 1..5 lies within n..5n. */
  lemma {:induction false} RatingSumBounds(s: seq<Order>)
    requires forall o :: o in s ==> o.review.Some? && 1 <= o.review.value.rating <= 5
    ensures |s| <= RatingSum(s) <= 5 * |s|
    decreases |s|
  {
    if s != [] {
      var init := s[..|s| - 1];
      assert forall o :: o in init ==> o in s;
      RatingSumBounds(init);
      assert s[|s| - 1] in s;
    }
  }

  /**
   * The mean rating over the reviewed orders of `s`, and 0 when none is
   * reviewed (the views print it as '0.0'); when every review is in 1..5 the
   * mean is too.
   */
  function AverageRating(s: seq<Order>): (r: real)
    ensures Count(s, HasReview) == 0 ==> r == 0.0
    ensures RatingsInRange(s) && Count(s, HasReview) > 0 ==> 1.0 <= r <= 5.0
  {
    var reviewed := Filter(s, HasReview);
    if |reviewed| > 0 then
      var n, total := |reviewed| as real, RatingSum(reviewed) as real;
      var mean := total / n;
      if RatingsInRange(s) then (RatingSumBounds(reviewed); MeanBounds(total, n); mean) else mean
    else 0.0
  }

  /** A total between n and 5n, over n > 0 items, has its mean between 1 and 5. */
  lemma MeanBounds(total: real, n: real)
    requires n > 0.0 && n <= total <= 5.0 * n
    ensures 1.0 <= total / n <= 5.0
  {
    var m := total / n;
    assert (5.0 - m) * n == 5.0 * n - total;
    assert (m - 1.0) * n == total - n;
  }
}
