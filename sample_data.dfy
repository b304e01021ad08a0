/** Worked values from the sample catalogue of frontend/src/constants.tsx.
    Ratings are in tenths: 4.8 is 48. */
module SampleData {
  import opened Domain
  import opened Ratings

  /** Cedars-Sinai (id 050444) is rated 4.8 over 45 reviews. A five-star review
      gives (4.8 * 45 + 5) / 46, about 4.804, so the rating stays 4.8; a one-star
      review gives (4.8 * 45 + 1) / 46, about 4.717, shown as 4.7. */
  lemma CedarsNewReview()
    ensures NewRating(48, 45, 5) == 48
    ensures NewRating(48, 45, 1) == 47
  {
    RoundHalfUpUnique(48 * 45 + 50, 46, 48);
    RoundHalfUpUnique(48 * 45 + 10, 46, 47);
  }

  /** The same review applied to a facility record with Cedars-Sinai's rating
      and count. */
  lemma CedarsRated(f: Facility)
    requires f.rating == 48 && f.reviewCount == 45
    ensures Rated(f, 5) == f.(rating := 48, reviewCount := 46)
    ensures Rated(f, 1) == f.(rating := 47, reviewCount := 46)
  {
    CedarsNewReview();
  }
}
