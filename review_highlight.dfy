// The review highlight card on a product page (ReviewHighlightCard.jsx):
// the highest-rated review's excerpt, the rating shown (the product's own
// rating, or the mean of its reviews when that is missing or zero), five
// stars and a "Read all N reviews" link. The card renders nothing when there
// are no reviews.

module ReviewHighlight {
  import opened Outcomes
  import Text

  /** The fields of a review the card reads. */
  datatype Review = Review(rating: int, comment: Option<string>)

  const EXCERPT_LENGTH: nat := 80
  const ELLIPSIS: string := "..."

  // ----- the top review

  /** Index of the review the card quotes: a left fold that replaces the
      current best only on a strictly higher rating, so ties keep the earliest. */
  function TopIndex(reviews: seq<Review>): (i: nat)
    requires reviews != []
    ensures i < |reviews|
    ensures forall j :: 0 <= j < |reviews| ==> reviews[j].rating <= reviews[i].rating
    ensures forall j :: 0 <= j < i ==> reviews[j].rating < reviews[i].rating
  {
    if |reviews| == 1 then 0
    else
      var best := TopIndex(reviews[..|reviews| - 1]);
      if reviews[|reviews| - 1].rating > reviews[best].rating then |reviews| - 1 else best
  }

  /** `topReview`: none for an empty list. */
  function TopReview(reviews: seq<Review>): Option<Review> {
    if reviews == [] then None else Some(reviews[TopIndex(reviews)])
  }

  /** The review quoted is the earliest one with the highest rating: any index
      that carries a maximal rating and has only lower ratings before it is
      the one `TopIndex` picks. */
  lemma TopIndexIsFirstMaximum(reviews: seq<Review>, k: nat)
    requires k < |reviews|
    requires forall j :: 0 <= j < |reviews| ==> reviews[j].rating <= reviews[k].rating
    requires forall j :: 0 <= j < k ==> reviews[j].rating < reviews[k].rating
    ensures TopIndex(reviews) == k
  {
    var i := TopIndex(reviews);
    assert reviews[i].rating == reviews[k].rating;
  }

  /** A non-empty list always has a review to quote, one of its own. */
  lemma TopReviewSpec(reviews: seq<Review>)
    ensures TopReview(reviews).None? <==> reviews == []
    ensures TopReview(reviews).Some? ==> TopReview(reviews).value in reviews
    ensures TopReview(reviews).Some? ==>
              forall r :: r in reviews ==> r.rating <= TopReview(reviews).value.rating
  {
  }

  // ----- the excerpt

  /** `getExcerpt(text, maxLength)`: a missing or empty comment gives the
      empty string, a short one is kept whole, and a long one is cut to
      `maxLength` characters, trimmed, and followed by an ellipsis. */
  function GetExcerpt(text: Option<string>, maxLength: nat): (r: string)
    ensures text.None? || text.value == "" ==> r == ""
    ensures text.Some? && 0 < |text.value| <= maxLength ==> r == text.value
    ensures text.Some? && |text.value| > maxLength ==>
              && 3 <= |r| <= maxLength + 3 && Text.EndsWith(r, ELLIPSIS)
  {
    if text.None? || text.value == "" then ""
    else if |text.value| <= maxLength then text.value
    else
      var cut := Text.JsTrim(text.value[..maxLength]);
      assert |cut| <= maxLength by {
        var _ := Text.TrimIsWindow(text.value[..maxLength], Text.IsJsSpace);
      }
      cut + ELLIPSIS
  }

  /** A long comment's excerpt quotes a stretch of its first `maxLength`
      characters: only white space is dropped before and after it. */
  lemma ExcerptQuotesTheStart(text: string, maxLength: nat) returns (start: nat)
    requires |text| > maxLength
    ensures var r := GetExcerpt(Some(text), maxLength);
            var body := r[..|r| - 3];
            && start + |body| <= maxLength
            && body == text[start..start + |body|]
            && (forall i :: 0 <= i < start ==> Text.IsJsSpace(text[i]))
            && (forall i :: start + |body| <= i < maxLength ==> Text.IsJsSpace(text[i]))
  {
    var head := text[..maxLength];
    start := Text.TrimIsWindow(head, Text.IsJsSpace);
    var body := Text.JsTrim(head);
    assert GetExcerpt(Some(text), maxLength) == body + ELLIPSIS;
    assert (body + ELLIPSIS)[..|body|] == body;
    assert head[start..start + |body|] == text[start..start + |body|];
    assert forall i :: 0 <= i < maxLength ==> head[i] == text[i];
  }

  // ----- the rating shown

  function SumRatings(reviews: seq<Review>): int {
    if reviews == [] then 0 else SumRatings(reviews[..|reviews| - 1]) + reviews[|reviews| - 1].rating
  }

  /** The mean rating of a non-empty list. */
  function MeanRating(reviews: seq<Review>): real
    requires reviews != []
  {
    SumRatings(reviews) as real / |reviews| as real
  }

  /** `rating || mean`: the product's rating when present and non-zero,
      otherwise the mean of the reviews. */
  function DisplayRating(rating: Option<real>, reviews: seq<Review>): real
    requires reviews != []
  {
    if rating.Some? && rating.value != 0.0 then rating.value else MeanRating(reviews)
  }

  /** Every review's rating lies in `[lo, hi]`. */
  ghost predicate RatingsWithin(reviews: seq<Review>, lo: int, hi: int) {
    forall j :: 0 <= j < |reviews| ==> lo <= reviews[j].rating <= hi
  }

  lemma {:induction false} SumRatingsBounds(reviews: seq<Review>, lo: int, hi: int)
    requires RatingsWithin(reviews, lo, hi)
    ensures |reviews| * lo <= SumRatings(reviews) <= |reviews| * hi
  {
    if reviews != [] {
      var init := reviews[..|reviews| - 1];
      assert RatingsWithin(init, lo, hi) by {
        forall j | 0 <= j < |init| ensures lo <= init[j].rating <= hi {
          assert init[j] == reviews[j];
        }
      }
      SumRatingsBounds(init, lo, hi);
    }
  }

  /** The mean lies between the lowest and the highest rating allowed. */
  lemma MeanRatingBounds(reviews: seq<Review>, lo: int, hi: int)
    requires reviews != [] && RatingsWithin(reviews, lo, hi)
    ensures lo as real <= MeanRating(reviews) <= hi as real
  {
    SumRatingsBounds(reviews, lo, hi);
    var n := |reviews| as real;
    var sum := SumRatings(reviews) as real;
    assert n * (lo as real) <= sum <= n * (hi as real);
  }

  /** With star ratings of 1 to 5 and no usable product rating, the card
      shows a rating between 1 and 5. */
  lemma DisplayRatingFallsBackToMean(rating: Option<real>, reviews: seq<Review>)
    requires reviews != [] && RatingsWithin(reviews, 1, 5)
    requires rating.None? || rating.value == 0.0
    ensures DisplayRating(rating, reviews) == MeanRating(reviews)
    ensures 1.0 <= DisplayRating(rating, reviews) <= 5.0
  {
    MeanRatingBounds(reviews, 1, 5);
  }

  /** Number of filled stars: the stars `i` in 0..4 with `i < Math.round(x)`,
      where `Math.round` rounds halves up. */
  function FilledStars(x: real): (n: nat)
    ensures n <= 5
    ensures 0.0 <= x <= 5.0 ==> (n as real) - 0.5 <= x < (n as real) + 0.5 || (n == 5 && x == 5.0)
  {
    var rounded := (x + 0.5).Floor;
    if rounded < 0 then 0 else if rounded > 5 then 5 else rounded
  }

  // ----- the card

  /** What the card shows. */
  datatype CardView = CardView(filledStars: nat, rating: real, excerpt: string, link: string)

  /** "Read all N review(s) →", singular only for one review. */
  function ReadAllLabel(count: nat): string {
    "Read all " + Text.NatToString(count) + " review" + (if count != 1 then "s" else "") + " →"
  }

  lemma ReadAllLabelPlural(count: nat)
    ensures Text.EndsWith(ReadAllLabel(count), "s →") <==> count != 1
  {
    var line := ReadAllLabel(count);
    if count == 1 {
      assert line[|line| - 3] == 'w';
    }
  }

  /** The card, or nothing when `reviews` is missing or empty. */
  function Card(reviews: Option<seq<Review>>, rating: Option<real>): (r: Option<CardView>)
    ensures r.None? <==> reviews.None? || reviews.value == []
  {
    if reviews.None? || reviews.value == [] then None
    else
      var shown := DisplayRating(rating, reviews.value);
      var top := TopReview(reviews.value);
      Some(CardView(FilledStars(shown), shown, GetExcerpt(top.value.comment, EXCERPT_LENGTH),
                    ReadAllLabel(|reviews.value|)))
  }

  /** The card shows the product's own rating, and stars for it, whenever
      that rating is present and non-zero; otherwise the reviews' mean. */
  lemma CardRating(reviews: seq<Review>, rating: Option<real>)
    requires reviews != []
    ensures Card(Some(reviews), rating).Some?
    ensures rating.Some? && rating.value != 0.0 ==>
              Card(Some(reviews), rating).value.rating == rating.value
              && Card(Some(reviews), rating).value.filledStars == FilledStars(rating.value)
    ensures rating.None? || rating.value == 0.0 ==>
              Card(Some(reviews), rating).value.rating == MeanRating(reviews)
              && Card(Some(reviews), rating).value.filledStars == FilledStars(MeanRating(reviews))
  {
  }
}
