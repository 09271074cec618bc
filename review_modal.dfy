// The review dialog (ReviewModal.jsx): star rating and comment, prefilled
// when an existing review is edited; submitting sends a PUT for an existing
// review or a POST for a new one. The token store and the request are
// parameters; the dialog's props arrive with each event.

module ReviewDialog {
  import opened Outcomes
  import Text

  const DEFAULT_RATING: int := 5
  const BLANK_COMMENT: string := "Please write a comment"
  const NOT_LOGGED_IN: string := "Please log in to submit a review"
  const UPDATE_FAILED: string := "Failed to update review. Please try again."
  const SUBMIT_FAILED: string := "Failed to submit review. Please try again."

  /** The review being edited; absent fields are JavaScript `undefined`/`null`. */
  datatype ExistingReview = ExistingReview(id: Option<int>, rating: Option<int>, comment: Option<string>)

  /** `x || fallback` for an optional number: absent and 0 are falsy. */
  function NumberOr(x: Option<int>, fallback: int): int {
    if x.Some? && x.value != 0 then x.value else fallback
  }

  /** The prefill effect's rating: `existingReview.rating || 5` when editing a review, else 5. */
  function PrefillRating(editMode: bool, existing: Option<ExistingReview>): int {
    if editMode && existing.Some? then NumberOr(existing.value.rating, DEFAULT_RATING) else DEFAULT_RATING
  }

  /** The prefill effect's comment: `existingReview.comment || ''` when editing a review, else empty. */
  function PrefillComment(editMode: bool, existing: Option<ExistingReview>): string {
    if editMode && existing.Some? && existing.value.comment.Some? then existing.value.comment.value else ""
  }

  /** The request a submission sends. */
  datatype ReviewRequest =
    | PutReview(reviewId: int, rating: int, comment: string, authorization: string)
    | PostReview(productId: int, rating: int, comment: string, authorization: string)

  /** PUT to the existing review when editing one that has a (truthy) id;
      POST with the product id otherwise. */
  function ChooseRequest(editMode: bool, existing: Option<ExistingReview>, productId: int,
                         rating: int, comment: string, token: string): ReviewRequest {
    if editMode && existing.Some? && existing.value.id.Some? && existing.value.id.value != 0 then
      PutReview(existing.value.id.value, rating, comment, "Bearer " + token)
    else PostReview(productId, rating, comment, "Bearer " + token)
  }

  /** The body of a failed request's response. A `message` that is not a
      string is recorded as absent: it leads to the same fallback. */
  datatype ErrorBody = NoBody | TextBody(text: string) | ObjectBody(message: Option<string>)

  /** `data?.message || data || ''`, kept only when it is a non-empty string. */
  function ServerMessage(body: ErrorBody): Option<string> {
    match body
    case NoBody => None
    case TextBody(t) => if t != "" then Some(t) else None
    case ObjectBody(m) => if m.Some? && m.value != "" then m else None
  }

  /** The error shown after a failed request. */
  function SubmitError(editMode: bool, body: ErrorBody): string {
    var server := ServerMessage(body);
    if server.Some? then server.value else if editMode then UPDATE_FAILED else SUBMIT_FAILED
  }

  /** The request is a PUT exactly when editing a review with an id, and it
      then targets that id; in every other case (edit mode without an id
      included) it is a POST for the product. Both carry the rating, the
      comment and a bearer header. */
  lemma ChooseRequestSpec(editMode: bool, existing: Option<ExistingReview>, productId: int,
                          rating: int, comment: string, token: string)
    ensures var r := ChooseRequest(editMode, existing, productId, rating, comment, token);
            && (r.PutReview? <==> editMode && existing.Some? && existing.value.id.Some? && existing.value.id.value != 0)
            && (r.PutReview? ==> r.reviewId == existing.value.id.value)
            && (r.PostReview? ==> r.productId == productId)
            && r.rating == rating && r.comment == comment && r.authorization == "Bearer " + token
  {
  }

  /** A failed request shows the server's message when it is a non-empty
      string, and otherwise the fallback for the mode. */
  lemma SubmitErrorSpec(editMode: bool, body: ErrorBody)
    ensures SubmitError(editMode, body) != ""
    ensures body.TextBody? && body.text != "" ==> SubmitError(editMode, body) == body.text
    ensures body.ObjectBody? && body.message.Some? && body.message.value != "" ==>
              SubmitError(editMode, body) == body.message.value
    ensures ServerMessage(body).None? ==>
              SubmitError(editMode, body) == if editMode then UPDATE_FAILED else SUBMIT_FAILED
  {
  }

  /** How the request ends. */
  datatype RequestOutcome = Saved | RequestFailed(body: ErrorBody)

  /** The parent's callbacks, in the order they are called. */
  datatype Callback = OnClose | OnReviewSubmitted

  class ReviewModal {
    var rating: int
    var comment: string
    var isSubmitting: bool
    var error: string

    constructor()
      ensures rating == DEFAULT_RATING && comment == "" && !isSubmitting && error == ""
    {
      rating := DEFAULT_RATING;
      comment := "";
      isSubmitting := false;
      error := "";
    }

    /** The prefill effect, run when the dialog opens or its review changes. */
    method Prefill(editMode: bool, existing: Option<ExistingReview>)
      modifies this
      ensures rating == PrefillRating(editMode, existing) && comment == PrefillComment(editMode, existing)
      ensures isSubmitting == old(isSubmitting) && error == old(error)
    {
      if editMode && existing.Some? {
        rating := NumberOr(existing.value.rating, DEFAULT_RATING);
        comment := if existing.value.comment.Some? then existing.value.comment.value else "";
      } else {
        rating := DEFAULT_RATING;
        comment := "";
      }
    }

    /** A click on star `star` of the five. */
    method ClickStar(star: int)
      requires 1 <= star <= 5
      modifies this
      ensures rating == star
      ensures comment == old(comment) && isSubmitting == old(isSubmitting) && error == old(error)
    {
      rating := star;
    }

    method ChangeComment(text: string)
      modifies this
      ensures comment == text
      ensures rating == old(rating) && isSubmitting == old(isSubmitting) && error == old(error)
    {
      comment := text;
    }

    /** `handleSubmit`, run to completion. */
    method HandleSubmit(editMode: bool, existing: Option<ExistingReview>, productId: int,
                        token: Option<string>, outcome: RequestOutcome, hasOnReviewSubmitted: bool)
      returns (request: Option<ReviewRequest>, callbacks: seq<Callback>)
      modifies this
      ensures SubmitEffects(rating, comment, isSubmitting, error, request, callbacks)
           == Submit(old(rating), old(comment), old(isSubmitting), old(error), editMode, existing, productId,
                     token, outcome, hasOnReviewSubmitted)
    {
      request, callbacks := None, [];
      if Text.JsTrim(comment) == "" {
        error := BLANK_COMMENT;
        return;
      }
      isSubmitting := true;
      error := "";
      if token.None? || token.value == "" {
        error := NOT_LOGGED_IN;
        isSubmitting := false;
        return;
      }
      request := Some(ChooseRequest(editMode, existing, productId, rating, comment, token.value));
      match outcome {
        case Saved =>
          rating := DEFAULT_RATING;
          comment := "";
          callbacks := [OnClose];
          if hasOnReviewSubmitted {
            callbacks := callbacks + [OnReviewSubmitted];
          }
        case RequestFailed(body) =>
          error := SubmitError(editMode, body);
      }
      isSubmitting := false;
    }
  }

  /** The form's state after a submission, with the request sent and the
      parent's callbacks called. */
  datatype SubmitEffects = SubmitEffects(rating: int, comment: string, isSubmitting: bool, error: string,
                                         request: Option<ReviewRequest>, callbacks: seq<Callback>)

  /** What `handleSubmit` does from a given form state. */
  function Submit(rating: int, comment: string, isSubmitting: bool, error: string,
                  editMode: bool, existing: Option<ExistingReview>, productId: int,
                  token: Option<string>, outcome: RequestOutcome, hasOnReviewSubmitted: bool): SubmitEffects
  {
    if Text.JsTrim(comment) == "" then
      SubmitEffects(rating, comment, isSubmitting, BLANK_COMMENT, None, [])
    else if token.None? || token.value == "" then
      SubmitEffects(rating, comment, false, NOT_LOGGED_IN, None, [])
    else
      var request := Some(ChooseRequest(editMode, existing, productId, rating, comment, token.value));
      match outcome
      case Saved =>
        SubmitEffects(DEFAULT_RATING, "", false, "", request,
                      [OnClose] + (if hasOnReviewSubmitted then [OnReviewSubmitted] else []))
      case RequestFailed(body) =>
        SubmitEffects(rating, comment, false, SubmitError(editMode, body), request, [])
  }

  /** A blank comment is refused before anything else; a missing token is
      refused without a request; otherwise exactly one request is sent, and
      only a saved review resets the form and calls `onClose` then
      `onReviewSubmitted`. Every path past the blank check ends with the
      form no longer submitting. */
  lemma SubmitSpec(rating: int, comment: string, isSubmitting: bool, error: string,
                   editMode: bool, existing: Option<ExistingReview>, productId: int,
                   token: Option<string>, outcome: RequestOutcome, hasOnReviewSubmitted: bool)
    ensures var e := Submit(rating, comment, isSubmitting, error, editMode, existing, productId,
                            token, outcome, hasOnReviewSubmitted);
            var blank := Text.JsTrim(comment) == "";
            var loggedIn := token.Some? && token.value != "";
            && (blank ==> e.request == None && e.callbacks == [] && e.error == BLANK_COMMENT
                          && e.rating == rating && e.comment == comment && e.isSubmitting == isSubmitting)
            && (!blank ==> !e.isSubmitting)
            && (!blank && !loggedIn ==> e.request == None && e.callbacks == [] && e.error == NOT_LOGGED_IN
                                        && e.rating == rating && e.comment == comment)
            && (e.request.Some? <==> !blank && loggedIn)
            && (e.request.Some? ==>
                  e.request.value == ChooseRequest(editMode, existing, productId, rating, comment, token.value))
            && (e.request.Some? && outcome == Saved ==>
                  e.rating == DEFAULT_RATING && e.comment == "" && e.error == ""
                  && e.callbacks == [OnClose] + (if hasOnReviewSubmitted then [OnReviewSubmitted] else []))
            && (e.request.Some? && outcome.RequestFailed? ==>
                  e.rating == rating && e.comment == comment && e.callbacks == []
                  && e.error == SubmitError(editMode, outcome.body) && e.error != "")
  {
    if outcome.RequestFailed? {
      SubmitErrorSpec(editMode, outcome.body);
    }
  }

  /** A comment of spaces, tabs and line breaks alone counts as blank. */
  lemma WhitespaceCommentIsBlank(comment: string)
    requires forall i :: 0 <= i < |comment| ==> Text.IsJsSpace(comment[i])
    ensures Text.JsTrim(comment) == ""
  {
    Text.TrimEmptyIff(comment, Text.IsJsSpace);
  }
}
