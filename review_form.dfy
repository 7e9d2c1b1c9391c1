/** The review form (src/components/ReviewForm.tsx): its fields, the star
    buttons, the validity check and the submit guard. */
module ReviewForm {
  import opened Types
  import Text

  /** The form as it opens: no rating, empty texts, no images. */
  const InitialFormData := ReviewFormData(0, "", "", [])

  /** The values of the five star buttons. */
  const StarValues: seq<int> := [1, 2, 3, 4, 5]

  /** `isFormValid`: a rating, and a title and comment that are not empty once trimmed. */
  predicate IsFormValid(f: ReviewFormData) {
    f.rating > 0 && Text.Trim(f.title) != "" && Text.Trim(f.comment) != ""
  }

  /** `handleSubmit`: the data is passed on to `onSubmit` when the rating is
      positive and both trimmed texts are truthy (non-empty). */
  function HandleSubmit(f: ReviewFormData): Option<ReviewFormData> {
    if f.rating > 0 && |Text.Trim(f.title)| > 0 && |Text.Trim(f.comment)| > 0 then Some(f) else None
  }

  /** `handleRatingChange`. */
  function HandleRatingChange(f: ReviewFormData, rating: int): ReviewFormData {
    f.(rating := rating)
  }

  /** The text fields `handleInputChange` is called with. */
  datatype TextField = Title | Comment

  /** `handleInputChange`. */
  function HandleInputChange(f: ReviewFormData, field: TextField, value: string): ReviewFormData {
    match field
    case Title => f.(title := value)
    case Comment => f.(comment := value)
  }

  /** The submit button's `disabled`. */
  predicate SubmitDisabled(f: ReviewFormData, isSubmitting: bool) {
    !IsFormValid(f) || isSubmitting
  }

  /** The form is valid exactly when it has a rating and neither text is
      blank (made only of white space). */
  lemma IsFormValidIffNotBlank(f: ReviewFormData)
    ensures IsFormValid(f) <==> f.rating > 0 && !Text.IsBlank(f.title) && !Text.IsBlank(f.comment)
  {
    Text.TrimEmptyIffBlank(f.title);
    Text.TrimEmptyIffBlank(f.comment);
  }

  /** Submitting forwards the form, unchanged, exactly when it is valid; an
      enabled submit button always forwards. */
  lemma SubmitForwardsIffValid(f: ReviewFormData, isSubmitting: bool)
    ensures HandleSubmit(f).Some? <==> IsFormValid(f)
    ensures HandleSubmit(f).Some? ==> HandleSubmit(f).value == f
    ensures !SubmitDisabled(f, isSubmitting) ==> HandleSubmit(f) == Some(f)
    ensures isSubmitting ==> SubmitDisabled(f, isSubmitting)
  {
  }

  /** The form as it opens cannot be submitted. */
  lemma InitialFormInvalid()
    ensures !IsFormValid(InitialFormData)
    ensures HandleSubmit(InitialFormData).None?
  {
  }

  /** A star click sets a rating between 1 and 5, which meets the rating half
      of the validity check. */
  lemma StarClickSetsRating(f: ReviewFormData, k: int)
    requires 0 <= k < |StarValues|
    ensures 1 <= HandleRatingChange(f, StarValues[k]).rating <= 5
    ensures IsFormValid(HandleRatingChange(f, StarValues[k])) <==>
      Text.Trim(f.title) != "" && Text.Trim(f.comment) != ""
  {
  }

  /** Each handler changes its own field and leaves the others as they were. */
  lemma HandlersTouchOwnField(f: ReviewFormData, rating: int, field: TextField, value: string)
    ensures var r := HandleRatingChange(f, rating);
      r.rating == rating && r.title == f.title && r.comment == f.comment && r.images == f.images
    ensures var r := HandleInputChange(f, field, value);
      && r.rating == f.rating && r.images == f.images
      && r.title == (if field == Title then value else f.title)
      && r.comment == (if field == Comment then value else f.comment)
  {
  }
}
