/**
 * The Review record of reviews/models.py: its rating validators and choices,
 * its defaults, and its newest-first default ordering.
 */
module ReviewModels {
  import opened Text
  import opened Sorting

  /** A row of the Review table. `rating` is an int so that out-of-range input can be represented. */
  datatype Review = Review(
    id: nat,
    reviewerName: string,
    rating: int,
    body: string,
    source: string,
    isApproved: bool,
    createdAt: int)

  const MinRating: int := 1
  const MaxRating: int := 5
  const DefaultRating: int := 5

  /** A failed validator: MinValueValidator(1) or MaxValueValidator(5). */
  datatype RatingError = BelowMinimum(limit: int) | AboveMaximum(limit: int)

  /** The rating field's validators, run in declaration order; each failure gives one error. */
  function ValidateRating(rating: int): (errors: seq<RatingError>)
    ensures |errors| <= 1
    ensures BelowMinimum(MinRating) in errors <==> rating < MinRating
    ensures AboveMaximum(MaxRating) in errors <==> rating > MaxRating
  {
    (if rating < MinRating then [BelowMinimum(MinRating)] else [])
    + (if rating > MaxRating then [AboveMaximum(MaxRating)] else [])
  }

  /** Validation accepts exactly the ratings 1 to 5. */
  lemma ValidRatings(rating: int)
    ensures ValidateRating(rating) == [] <==> 1 <= rating <= 5
  {
  }

  /** RATING_CHOICES: `[(i, str(i)) for i in range(1, 6)]`. */
  function RatingChoices(): (choices: seq<(int, string)>) {
    seq(5, i requires 0 <= i < 5 => (i + 1, DecimalString(i + 1)))
  }

  /**
   * The choices are exactly the valid ratings, in increasing order, each
   * labelled with its one-digit decimal text.
   */
  lemma RatingChoicesMatchValidators()
    ensures forall r :: (exists i :: 0 <= i < |RatingChoices()| && RatingChoices()[i].0 == r) <==> ValidateRating(r) == []
    ensures forall i, j :: 0 <= i < j < |RatingChoices()| ==> RatingChoices()[i].0 < RatingChoices()[j].0
    ensures forall i :: 0 <= i < |RatingChoices()| ==>
              |RatingChoices()[i].1| == 1 && RatingChoices()[i].0 == ParseDecimal(RatingChoices()[i].1)
  {
    var choices := RatingChoices();
    forall r ensures (exists i :: 0 <= i < |choices| && choices[i].0 == r) <==> ValidateRating(r) == [] {
      if 1 <= r <= 5 {
        assert choices[r - 1].0 == r;
      }
    }
    forall i | 0 <= i < |choices|
      ensures |choices[i].1| == 1 && choices[i].0 == ParseDecimal(choices[i].1)
    {
      ParseDecimalRoundTrip(i + 1);
    }
  }

  /** `Review(...)` with the omitted fields at their defaults: rating 5, no source, not approved. */
  function NewReview(id: nat, reviewerName: string, body: string, createdAt: int,
                     rating: int := DefaultRating, source: string := "", isApproved: bool := false): Review
  {
    Review(id, reviewerName, rating, body, source, isApproved, createdAt)
  }

  /** A review created without an explicit rating or approval is valid and hidden from the site. */
  lemma NewReviewDefaults(id: nat, reviewerName: string, body: string, createdAt: int)
    ensures !NewReview(id, reviewerName, body, createdAt).isApproved
    ensures ValidateRating(NewReview(id, reviewerName, body, createdAt).rating) == []
    ensures NewReview(id, reviewerName, body, createdAt).rating == MaxRating
  {
  }

  /** Meta.ordering `-created_at`: newer reviews first. */
  predicate NewerOrSame(a: Review, b: Review) {
    a.createdAt >= b.createdAt
  }

  function NewestFirst(): (Review, Review) -> bool {
    (a, b) => NewerOrSame(a, b)
  }

  lemma NewestFirstIsTotalPreorder()
    ensures TotalPreorder(NewestFirst())
  {
    var le := NewestFirst();
    assert forall a, b :: le(a, b) <==> a.createdAt >= b.createdAt;
  }

  /** `filter(is_approved=True)`. */
  function Approved(): Review -> bool {
    (r: Review) => r.isApproved
  }
}
