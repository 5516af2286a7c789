/** The review form: a star rating, a comment, and a submit guarded by the comment's trimmed text. */
module ReviewForm {
  import opened Wrappers
  import opened Text

  /** The star buttons, each of which sets the rating to its own value. */
  const Stars: seq<int> := [1, 2, 3, 4, 5]

  const InitialRating: int := 5

  /** `disabled={submitting || !reviewText.trim()}`, negated. */
  predicate SubmitEnabled(submitting: bool, text: string) {
    !submitting && Trim(text) != []
  }

  /** The button is enabled exactly when nothing is in flight and the comment has a non-whitespace character. */
  lemma SubmitEnabledIff(submitting: bool, text: string)
    ensures SubmitEnabled(submitting, text) <==> !submitting && exists i :: 0 <= i < |text| && !IsWhitespace(text[i])
  {
    TrimEmptyIffBlank(text);
  }

  /** The `onSubmit(rating, comment)` call the form makes. */
  datatype ReviewCall = ReviewCall(rating: int, comment: string)

  /** The form's held state. */
  class ReviewFormState {
    var rating: int
    var reviewText: string
    var submitting: bool

    /** The rating is always between one and five stars. */
    ghost predicate Valid()
      reads this
    {
      1 <= rating <= 5
    }

    constructor ()
      ensures Valid()
      ensures rating == InitialRating && reviewText == "" && !submitting
    {
      rating, reviewText, submitting := InitialRating, "", false;
    }

    /** A star button's `onClick`: `setRating(star)`. */
    method SelectStar(star: int)
      requires Valid() && star in Stars
      modifies this`rating
      ensures Valid() && rating == star
    {
      rating := star;
    }

    /** The textarea's `onChange`. */
    method EditText(text: string)
      modifies this`reviewText
      ensures reviewText == text
    {
      reviewText := text;
    }

    /**
     * `handleSubmit` up to its `await`: a blank comment returns without a call
     * and without touching `submitting`; otherwise `submitting` is set and
     * `onSubmit` is called with the current rating and the untrimmed comment.
     */
    method BeginSubmit() returns (call: Option<ReviewCall>)
      requires Valid()
      modifies this`submitting
      ensures Valid()
      ensures call.None? <==> IsBlank(reviewText)
      ensures call.None? ==> submitting == old(submitting)
      ensures call.Some? ==> submitting && call.value == ReviewCall(rating, reviewText)
    {
      TrimEmptyIffBlank(reviewText);
      if Trim(reviewText) == [] {
        return None;
      }
      submitting := true;
      call := Some(ReviewCall(rating, reviewText));
    }

    /**
     * `handleSubmit` after its `await`: a resolved call resets the comment and the
     * rating; a rejected one keeps both and, there being no `catch`, propagates.
     * The `finally` clears `submitting`.
     */
    method CompleteSubmit(resolves: bool) returns (propagates: bool)
      requires Valid()
      modifies this`rating, this`reviewText, this`submitting
      ensures Valid()
      ensures !submitting && propagates == !resolves
      ensures resolves ==> reviewText == "" && rating == InitialRating
      ensures !resolves ==> reviewText == old(reviewText) && rating == old(rating)
    {
      if resolves {
        reviewText := "";
        rating := InitialRating;
      }
      submitting := false;
      propagates := !resolves;
    }

    /** The whole `handleSubmit`, with the outcome of `onSubmit` as an input. */
    method HandleSubmit(resolves: bool) returns (call: Option<ReviewCall>, propagates: bool)
      requires Valid()
      modifies this`rating, this`reviewText, this`submitting
      ensures Valid()
      ensures call == if IsBlank(old(reviewText)) then None else Some(ReviewCall(old(rating), old(reviewText)))
      ensures call.None? ==> !propagates && reviewText == old(reviewText) && rating == old(rating) && submitting == old(submitting)
      ensures call.Some? ==> !submitting && propagates == !resolves
      ensures call.Some? && resolves ==> reviewText == "" && rating == InitialRating
      ensures call.Some? && !resolves ==> reviewText == old(reviewText) && rating == old(rating)
    {
      call := BeginSubmit();
      propagates := false;
      if call.Some? {
        propagates := CompleteSubmit(resolves);
      }
    }
  }
}
