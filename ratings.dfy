/** `updateFacilityRating` (frontend/App.tsx): a new review's stars are folded
    into the facility's mean rating, which is then rounded to one decimal with
    `toFixed(1)`. Ratings are kept in integer tenths, so the mean
    (rating/10 * count + stars) / (count + 1), in tenths, is the rational
    (rating * count + 10 * stars) / (count + 1), and `toFixed(1)` rounds it to
    the nearest integer, halves upwards. */
module Ratings {
  import opened Domain
  import opened Seqs

  /** `num / den` rounded to the nearest integer, a half rounded up: the `n`
      with n - 1/2 <= num/den < n + 1/2. */
  function RoundHalfUp(num: nat, den: nat): (n: nat)
    requires den > 0
    ensures den * (2 * n) <= 2 * num + den < den * (2 * n + 2)
  {
    var n := (2 * num + den) / (2 * den);
    assert 2 * num + den == (2 * den) * n + (2 * num + den) % (2 * den);
    n
  }

  /** Only one integer lies in the half-open window of `RoundHalfUp`. */
  lemma RoundHalfUpUnique(num: nat, den: nat, m: nat)
    requires den > 0
    requires den * (2 * m) <= 2 * num + den < den * (2 * m + 2)
    ensures m == RoundHalfUp(num, den)
  {
    var n := RoundHalfUp(num, den);
    if m < n {
      MulMonotone(den, 2 * m + 2, 2 * n);
    } else if n < m {
      MulMonotone(den, 2 * n + 2, 2 * m);
    }
  }

  lemma MulMonotone(d: nat, a: int, b: int)
    requires a <= b
    ensures d * a <= d * b
  {
    assert d * b - d * a == d * (b - a);
  }

  /** The rounded mean of a whole number of tenths lies between its bounds. */
  lemma {:induction false} RoundHalfUpBetween(num: nat, den: nat, lo: nat, hi: nat)
    requires den > 0 && den * lo <= num <= den * hi
    ensures lo <= RoundHalfUp(num, den) <= hi
  {
    var n := RoundHalfUp(num, den);
    if n > hi {
      MulMonotone(den, 2 * hi + 2, 2 * n);
    }
    if n < lo {
      MulMonotone(den, 2 * n + 2, 2 * lo);
    }
  }

  /** The new rating, in tenths, after one more review of `stars` stars. */
  function NewRating(rating: nat, count: nat, stars: nat): (r: nat)
    ensures var total, n := rating * count + 10 * stars, count + 1;
      n * (2 * r) <= 2 * total + n < n * (2 * r + 2)
  {
    RoundHalfUp(rating * count + 10 * stars, count + 1)
  }

  /** The new mean lies between the old mean and the new review's stars. */
  lemma NewRatingBetween(rating: nat, count: nat, stars: nat)
    ensures rating <= 10 * stars ==> rating <= NewRating(rating, count, stars) <= 10 * stars
    ensures 10 * stars <= rating ==> 10 * stars <= NewRating(rating, count, stars) <= rating
  {
    var num := rating * count + 10 * stars;
    assert (count + 1) * rating == rating * count + rating;
    assert (count + 1) * (10 * stars) == 10 * stars * count + 10 * stars;
    if rating <= 10 * stars {
      MulMonotone(count, rating, 10 * stars);
      RoundHalfUpBetween(num, count + 1, rating, 10 * stars);
    } else {
      MulMonotone(count, 10 * stars, rating);
      RoundHalfUpBetween(num, count + 1, 10 * stars, rating);
    }
  }

  /** A rating on the 0 to 5.0 scale stays there after a review of 1 to 5 stars. */
  lemma NewRatingOnScale(rating: nat, count: nat, stars: nat)
    requires rating <= 50 && 1 <= stars <= 5
    ensures NewRating(rating, count, stars) <= 50
  {
    NewRatingBetween(rating, count, stars);
  }

  /** The first review sets the rating to its own stars, whatever the stored
      rating was. */
  lemma FirstReviewSetsRating(rating: nat, stars: nat)
    ensures NewRating(rating, 0, stars) == 10 * stars
  {
    RoundHalfUpUnique(10 * stars, 1, 10 * stars);
  }

  /** A review that agrees with the current mean leaves it where it is. */
  lemma AgreeingReviewKeepsRating(count: nat, stars: nat)
    ensures NewRating(10 * stars, count, stars) == 10 * stars
  {
    NewRatingBetween(10 * stars, count, stars);
  }

  /** The facility after one more review: one more in the count, the rounded
      new mean as rating, every other field as it was. */
  function Rated(f: Facility, stars: nat): (g: Facility)
    ensures g.reviewCount == f.reviewCount + 1
    ensures g.rating == NewRating(f.rating, f.reviewCount, stars)
    ensures g == f.(reviewCount := g.reviewCount, rating := g.rating)
  {
    f.(reviewCount := f.reviewCount + 1, rating := NewRating(f.rating, f.reviewCount, stars))
  }

  /** `updateFacilityRating(facilityId, rating)`: every facility with that id is
      rated, all others are kept, and the order is kept. */
  function UpdateFacilityRating(facilities: seq<Facility>, facilityId: string, stars: nat): (r: seq<Facility>)
    ensures |r| == |facilities|
    ensures forall i :: 0 <= i < |r| ==> r[i].id == facilities[i].id
    ensures forall i :: 0 <= i < |r| && facilities[i].id == facilityId ==> r[i] == Rated(facilities[i], stars)
    ensures forall i :: 0 <= i < |r| && facilities[i].id != facilityId ==> r[i] == facilities[i]
  {
    MapWhere(facilities, (f: Facility) => f.id == facilityId, (f: Facility) => Rated(f, stars))
  }

  /** The number of reviews counted over all facilities. */
  function TotalReviews(facilities: seq<Facility>): nat {
    if facilities == [] then 0 else facilities[0].reviewCount + TotalReviews(facilities[1..])
  }

  /** The number of facilities with the given id. */
  function CountId(facilities: seq<Facility>, id: string): nat {
    |Filter(facilities, (f: Facility) => f.id == id)|
  }

  /** Each review is counted once per facility carrying its id: exactly once
      when ids are unique and the facility exists, not at all for an unknown id. */
  lemma {:induction false} UpdateCountsOneReview(facilities: seq<Facility>, facilityId: string, stars: nat)
    ensures TotalReviews(UpdateFacilityRating(facilities, facilityId, stars))
         == TotalReviews(facilities) + CountId(facilities, facilityId)
    decreases |facilities|
  {
    if facilities != [] {
      var r := UpdateFacilityRating(facilities, facilityId, stars);
      var t := facilities[1..];
      UpdateCountsOneReview(t, facilityId, stars);
      assert r[1..] == UpdateFacilityRating(t, facilityId, stars);
    }
  }
}
