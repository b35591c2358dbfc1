/** Average review rating of a product: 0 when it has no review, otherwise
    the sum of its ratings over their count. */
module Ratings {
  import opened Schema

  function Sum(s: seq<nat>): nat
  {
    if s == [] then 0 else s[0] + Sum(s[1..])
  }

  /** The smallest rating in a non-empty list. */
  function Min(s: seq<nat>): (m: nat)
    requires |s| > 0
    ensures m in s
    ensures forall i :: 0 <= i < |s| ==> m <= s[i]
  {
    if |s| == 1 then s[0]
    else
      var rest := Min(s[1..]);
      if s[0] <= rest then s[0] else rest
  }

  /** The largest rating in a non-empty list. */
  function Max(s: seq<nat>): (m: nat)
    requires |s| > 0
    ensures m in s
    ensures forall i :: 0 <= i < |s| ==> s[i] <= m
  {
    if |s| == 1 then s[0]
    else
      var rest := Max(s[1..]);
      if s[0] >= rest then s[0] else rest
  }

  /** count * min <= sum <= count * max. */
  lemma {:induction false} SumBounds(s: seq<nat>)
    requires |s| > 0
    ensures |s| * Min(s) <= Sum(s) <= |s| * Max(s)
  {
    if |s| > 1 {
      var tail := s[1..];
      SumBounds(tail);
      var k := |tail|;
      var lo, hi := Min(s), Max(s);
      assert Sum(s) == s[0] + Sum(tail);
      assert lo <= Min(tail) && lo <= s[0];
      assert Max(tail) <= hi && s[0] <= hi;
      MulMonotone(k, lo, Min(tail));
      MulMonotone(k, Max(tail), hi);
      MulSucc(k, lo);
      MulSucc(k, hi);
    }
  }

  lemma MulMonotone(k: nat, a: nat, b: nat)
    requires a <= b
    ensures k * a <= k * b
  {
  }

  lemma MulSucc(k: nat, a: nat)
    ensures (k + 1) * a == a + k * a
  {
  }

  /** Every rating in the list is on the 1..5 scale. */
  predicate AllValid(s: seq<nat>)
  {
    forall i :: 0 <= i < |s| ==> ValidRating(s[i])
  }

  /** The mean rating, unrounded: 0 for no ratings, otherwise between the
      smallest and the largest rating, hence on the 1..5 scale when every
      rating is. */
  function AverageRating(s: seq<nat>): (r: real)
    ensures |s| == 0 ==> r == 0.0
    ensures |s| > 0 ==> Min(s) as real <= r <= Max(s) as real
    ensures |s| > 0 && AllValid(s) ==> 1.0 <= r <= 5.0
  {
    if |s| == 0 then
      assert Sum(s) == 0;
      0.0
    else
      SumBounds(s);
      var r := Sum(s) as real / |s| as real;
      DivBounds(Sum(s), |s|, Min(s), Max(s));
      r
  }

  lemma DivBounds(sum: nat, count: nat, lo: nat, hi: nat)
    requires count > 0
    requires count * lo <= sum <= count * hi
    ensures lo as real <= sum as real / count as real <= hi as real
  {
    var c := count as real;
    assert c * (lo as real) <= sum as real;
    assert sum as real <= c * (hi as real);
  }

  /** The three ratings 5, 3 and 4 average to 4. */
  lemma AverageOfThree()
    ensures AverageRating([5, 3, 4]) == 4.0
  {
    assert Sum([5, 3, 4]) == 12;
  }

  /** The ids below `n` of the reviews of product `p`. */
  function ReviewsOf(reviews: map<Id, Review>, p: Id, n: nat): set<Id>
  {
    set k | k in reviews && k < n && reviews[k].product == p
  }

  /** Every stored review's rating is on the 1..5 scale. */
  predicate AllRated(reviews: map<Id, Review>)
  {
    forall k :: k in reviews ==> ValidRating(reviews[k].rating)
  }

  /** The ids below `n` of the reviews of product `p` rated `v`. */
  function RatedAs(reviews: map<Id, Review>, p: Id, n: nat, v: nat): set<Id>
  {
    set k | k in reviews && k < n && reviews[k].product == p && reviews[k].rating == v
  }

  /** The ratings of the reviews of `p` whose id is below `n`, in id order:
      one entry per review (`ProductRatingsCounts` says which). */
  function ProductRatings(reviews: map<Id, Review>, p: Id, n: nat): (r: seq<nat>)
    ensures |r| == |ReviewsOf(reviews, p, n)|
    ensures AllRated(reviews) ==> AllValid(r)
  {
    if n == 0 then
      assert ReviewsOf(reviews, p, n) == {};
      []
    else
      var k := n - 1;
      var prefix := ProductRatings(reviews, p, k);
      if k in reviews && reviews[k].product == p then
        assert ReviewsOf(reviews, p, n) == ReviewsOf(reviews, p, k) + {k};
        prefix + [reviews[k].rating]
      else
        assert ReviewsOf(reviews, p, n) == ReviewsOf(reviews, p, k);
        prefix
  }

  /** Each rating occurs in the list exactly as often as there are reviews
      of `p` with that rating. */
  lemma {:induction false} ProductRatingsCounts(reviews: map<Id, Review>, p: Id, n: nat, v: nat)
    ensures multiset(ProductRatings(reviews, p, n))[v] == |RatedAs(reviews, p, n, v)|
  {
    if n == 0 {
      assert RatedAs(reviews, p, n, v) == {};
    } else {
      var k := n - 1;
      ProductRatingsCounts(reviews, p, k, v);
      RatedAsStep(reviews, p, k, v);
      var prefix := ProductRatings(reviews, p, k);
      if k in reviews && reviews[k].product == p {
        assert ProductRatings(reviews, p, n) == prefix + [reviews[k].rating];
        assert multiset(prefix + [reviews[k].rating]) == multiset(prefix) + multiset{reviews[k].rating};
      }
    }
  }

  /** Raising the id bound from `k` to `k + 1` adds review `k` to the ratings
      it has, when it is a review of `p`. */
  lemma RatedAsStep(reviews: map<Id, Review>, p: Id, k: nat, v: nat)
    ensures k !in RatedAs(reviews, p, k, v)
    ensures k in reviews && reviews[k].product == p && reviews[k].rating == v ==>
      RatedAs(reviews, p, k + 1, v) == RatedAs(reviews, p, k, v) + {k}
    ensures !(k in reviews && reviews[k].product == p && reviews[k].rating == v) ==>
      RatedAs(reviews, p, k + 1, v) == RatedAs(reviews, p, k, v)
  {
  }

  /** A rating is in the list iff some review of `p` below `n` has it. */
  lemma ProductRatingsMembers(reviews: map<Id, Review>, p: Id, n: nat, v: nat)
    ensures v in ProductRatings(reviews, p, n) <==> RatedAs(reviews, p, n, v) != {}
  {
    ProductRatingsCounts(reviews, p, n, v);
  }

  /** When `p` has a review below `n`, the mean of its ratings lies between
      the ratings of its lowest and its highest rated review. */
  lemma RatingsBracket(reviews: map<Id, Review>, p: Id, n: nat)
    requires ReviewsOf(reviews, p, n) != {}
    ensures exists lo, hi ::
      && lo in ReviewsOf(reviews, p, n) && hi in ReviewsOf(reviews, p, n)
      && reviews[lo].rating as real <= AverageRating(ProductRatings(reviews, p, n)) <= reviews[hi].rating as real
      && forall k :: k in ReviewsOf(reviews, p, n) ==> reviews[lo].rating <= reviews[k].rating <= reviews[hi].rating
  {
    var s := ProductRatings(reviews, p, n);
    ProductRatingsMembers(reviews, p, n, Min(s));
    ProductRatingsMembers(reviews, p, n, Max(s));
    var lo :| lo in RatedAs(reviews, p, n, Min(s));
    var hi :| hi in RatedAs(reviews, p, n, Max(s));
    forall k | k in ReviewsOf(reviews, p, n)
      ensures reviews[lo].rating <= reviews[k].rating <= reviews[hi].rating
    {
      var v := reviews[k].rating;
      assert k in RatedAs(reviews, p, n, v);
      ProductRatingsMembers(reviews, p, n, v);
      var i :| 0 <= i < |s| && s[i] == v;
    }
    assert lo in ReviewsOf(reviews, p, n) && hi in ReviewsOf(reviews, p, n);
  }
}
