// The back end's review service (ReviewService.java): adding a review
// recomputes the product's average rating from the stored reviews and the
// new one, then saves the review; reviews of a product are listed as DTOs.
// The repositories are fields of the service: users and products as maps by
// id, reviews as one list kept newest first, which is the order the
// repository's "by product, newest first" query returns them in.

module Reviews {
  import opened Outcomes
  import Positions

  datatype User = User(id: int, name: string)

  /** A product's stored rating is absent until the first review. */
  datatype Product = Product(id: int, rating: Option<real>)

  datatype Review = Review(id: int, user: User, productId: int, rating: int,
                           comment: Option<string>, createdAt: int)

  datatype ReviewDTO = ReviewDTO(id: int, rating: int, comment: Option<string>, createdAt: int,
                                 userName: string, userId: int, productId: int)

  const USER_NOT_FOUND: string := "User not found"
  const PRODUCT_NOT_FOUND: string := "Product not found"

  /** `findByProductIdOrderByCreatedAtDesc`: the product's reviews, in stored order. */
  function ReviewsOf(reviews: seq<Review>, productId: int): (r: seq<Review>)
    ensures |r| <= |reviews|
    ensures forall x :: x in r <==> x in reviews && x.productId == productId
  {
    if reviews == [] then []
    else (if reviews[0].productId == productId then [reviews[0]] else [])
         + ReviewsOf(reviews[1..], productId)
  }

  /** A review is kept by the filter when it is of the product. */
  function IsOf(productId: int): Review -> bool {
    (review: Review) => review.productId == productId
  }

  /** A review stored after all the others comes last among its product's. */
  lemma {:induction false} ReviewsOfSnoc(reviews: seq<Review>, x: Review, productId: int)
    ensures ReviewsOf(reviews + [x], productId) ==
              ReviewsOf(reviews, productId) + (if x.productId == productId then [x] else [])
  {
    var longer := reviews + [x];
    if reviews == [] {
      assert longer == [x];
    } else {
      ReviewsOfSnoc(reviews[1..], x, productId);
      assert longer[0] == reviews[0] && longer[1..] == reviews[1..] + [x];
      var head := if reviews[0].productId == productId then [reviews[0]] else [];
      var middle := ReviewsOf(reviews[1..], productId);
      var tail := if x.productId == productId then [x] else [];
      assert head + (middle + tail) == (head + middle) + tail;
    }
  }

  /** The product's reviews are the stored reviews at that product's
      positions, in stored order. */
  lemma {:induction false} ReviewsOfInOrder(reviews: seq<Review>, productId: int) returns (positions: seq<nat>)
    ensures Positions.KeptInOrder(reviews, IsOf(productId), ReviewsOf(reviews, productId), positions)
    decreases |reviews|
  {
    if reviews == [] {
      positions := [];
    } else {
      var init, x := reviews[..|reviews| - 1], reviews[|reviews| - 1];
      assert reviews == init + [x];
      var before := ReviewsOfInOrder(init, productId);
      ReviewsOfSnoc(init, x, productId);
      Positions.KeptInOrderStep(init, x, IsOf(productId), ReviewsOf(init, productId), before);
      positions := if x.productId == productId then before + [|init|] else before;
    }
  }

  function SumRatings(reviews: seq<Review>): int {
    if reviews == [] then 0 else SumRatings(reviews[..|reviews| - 1]) + reviews[|reviews| - 1].rating
  }

  /** The exact mean of the ratings. */
  function Mean(reviews: seq<Review>): real
    requires reviews != []
  {
    SumRatings(reviews) as real / |reviews| as real
  }

  lemma {:induction false} SumRatingsPrepend(x: Review, reviews: seq<Review>)
    ensures SumRatings([x] + reviews) == x.rating + SumRatings(reviews)
  {
    if reviews != [] {
      var init := reviews[..|reviews| - 1];
      assert ([x] + reviews)[..|reviews|] == [x] + init;
      SumRatingsPrepend(x, init);
    }
  }

  /** `convertToDTO`: the review's own fields, and its author's name and id. */
  function ConvertToDTO(review: Review): (d: ReviewDTO)
    ensures d.id == review.id && d.rating == review.rating && d.comment == review.comment
    ensures d.createdAt == review.createdAt && d.productId == review.productId
    ensures d.userName == review.user.name && d.userId == review.user.id
  {
    ReviewDTO(review.id, review.rating, review.comment, review.createdAt,
              review.user.name, review.user.id, review.productId)
  }

  /** The average a product gets when `newRating` joins `existing`: the sum
      starts at the new rating and the count at one. */
  function AverageWith(newRating: int, existing: seq<Review>): real {
    (newRating + SumRatings(existing)) as real / (1 + |existing|) as real
  }

  /** With no earlier reviews the product takes the new rating exactly. */
  lemma FirstReviewSetsRating(newRating: int)
    ensures AverageWith(newRating, []) == newRating as real
  {
  }

  /** Counting the new review once: the average equals the mean over the new
      review followed by the earlier ones. */
  lemma AverageWithIsMean(review: Review, existing: seq<Review>)
    ensures AverageWith(review.rating, existing) == Mean([review] + existing)
  {
    SumRatingsPrepend(review, existing);
  }

  class ReviewService {
    var users: map<int, User>
    var products: map<int, Product>
    var reviews: seq<Review>
    var nextId: int

    constructor(users: map<int, User>, products: map<int, Product>)
      ensures this.users == users && this.products == products && reviews == [] && nextId == 1
    {
      this.users := users;
      this.products := products;
      reviews := [];
      nextId := 1;
    }

    /** `getReviewsByProductId`: one DTO per review of the product, newest first. */
    function GetReviewsByProductId(productId: int): (r: seq<ReviewDTO>)
      reads this
      ensures |r| == |ReviewsOf(reviews, productId)|
      ensures forall i :: 0 <= i < |r| ==> r[i] == ConvertToDTO(ReviewsOf(reviews, productId)[i])
      ensures forall d :: d in r ==> d.productId == productId
    {
      var own := ReviewsOf(reviews, productId);
      seq(|own|, i requires 0 <= i < |own| => ConvertToDTO(own[i]))
    }

    /** The DTOs come in stored order: the i-th is the DTO of the stored
        review at `positions[i]`, the positions strictly increase, and a
        stored review has one exactly when it is of the product. */
    lemma GetReviewsInStoredOrder(productId: int) returns (positions: seq<nat>)
      ensures |positions| == |GetReviewsByProductId(productId)|
      ensures Positions.StrictlyIncreasing(positions)
      ensures forall k :: 0 <= k < |positions| ==>
                positions[k] < |reviews| && GetReviewsByProductId(productId)[k] == ConvertToDTO(reviews[positions[k]])
      ensures forall i :: 0 <= i < |reviews| ==> (i in positions <==> reviews[i].productId == productId)
    {
      positions := ReviewsOfInOrder(reviews, productId);
    }

    /** `updateProductRating`: the stored reviews' ratings are summed onto
        the new rating, the count is one more than their number, and the
        product gets the average. */
    method UpdateProductRating(productId: int, newRating: int)
      requires productId in products
      modifies this
      ensures products == old(products)[productId :=
                old(products)[productId].(rating := Some(AverageWith(newRating, ReviewsOf(reviews, productId))))]
      ensures users == old(users) && reviews == old(reviews) && nextId == old(nextId)
    {
      var existing := ReviewsOf(reviews, productId);
      var sum := newRating;
      var count := 1;
      if existing != [] {
        sum := sum + SumRatings(existing);
        count := count + |existing|;
      }
      var average := sum as real / count as real;
      products := products[productId := products[productId].(rating := Some(average))];
    }

    /** `addReview`: an unknown user or product is an error and nothing
        changes; otherwise the product's rating is recomputed, the review is
        stored and its DTO returned. */
    method AddReview(userId: int, productId: int, rating: int, comment: Option<string>, now: int)
      returns (r: Result<ReviewDTO, string>)
      modifies this
      ensures userId !in old(users) ==>
                r == Failure(USER_NOT_FOUND) && products == old(products) && reviews == old(reviews) && nextId == old(nextId)
      ensures userId in old(users) && productId !in old(products) ==>
                r == Failure(PRODUCT_NOT_FOUND) && products == old(products) && reviews == old(reviews) && nextId == old(nextId)
      ensures users == old(users)
      ensures userId in old(users) && productId in old(products) ==>
                var saved := Review(old(nextId), old(users)[userId], productId, rating, comment, now);
                && reviews == [saved] + old(reviews)
                && nextId == old(nextId) + 1
                && r == Success(ConvertToDTO(saved))
                && products == old(products)[productId :=
                     old(products)[productId].(rating := Some(Mean(ReviewsOf(reviews, productId))))]
    {
      if userId !in users {
        return Failure(USER_NOT_FOUND);
      }
      if productId !in products {
        return Failure(PRODUCT_NOT_FOUND);
      }
      var review := Review(nextId, users[userId], productId, rating, comment, now);
      ghost var existing := ReviewsOf(reviews, productId);
      UpdateProductRating(productId, rating);
      reviews := [review] + reviews;
      nextId := nextId + 1;
      assert ReviewsOf(reviews, productId) == [review] + existing by {
        assert reviews[1..] == old(reviews);
      }
      AverageWithIsMean(review, existing);
      r := Success(ConvertToDTO(review));
    }
  }
}
