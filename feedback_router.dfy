/**
 * The feedback endpoint (backend/api/routers/feedback.py): the rating-range
 * check and the mapping of failures to HTTP errors. The feedback service
 * that stores the record is a foreign call; it is a parameter here.
 */
module FeedbackRouter {
  import opened Wrappers
  import opened Http

  /** `FeedbackCreate`: the submitted fields. */
  datatype FeedbackCreate = FeedbackCreate(queryId: string, rating: int, comments: Option<string>, isHelpful: bool)

  /** `FeedbackResponse`: a stored record. */
  datatype FeedbackResponse = FeedbackResponse(id: string, queryId: string, rating: int, comments: Option<string>, isHelpful: bool, createdAt: string)

  /** An exception raised by the service: an `HTTPException`, which the
      endpoint re-raises as it is, or any other exception, by its text. */
  datatype ServiceError = HttpRaised(e: HttpError) | Raised(message: string)

  /** What `FeedbackService.create_feedback` does with a record: the stored
      response, or the exception it raised. */
  type FeedbackService = FeedbackCreate -> Result<FeedbackResponse, ServiceError>

  const RatingMessage: string := "Rating must be between 1 and 5"

  predicate ValidRating(rating: int) {
    1 <= rating <= 5
  }

  /** `submit_feedback`: a rating outside 1..5 is refused with 400 before
      the service is asked; an `HTTPException` from the service passes
      through unchanged, any other failure becomes 500 with its text;
      otherwise the stored record is returned. */
  function SubmitFeedback(queryId: string, rating: int, comments: Option<string>, isHelpful: bool,
                          service: FeedbackService): (r: Result<FeedbackResponse, HttpError>)
    ensures !ValidRating(rating) ==> r == Err(HttpError(BadRequest, RatingMessage))
    ensures ValidRating(rating) ==>
      var sent := FeedbackCreate(queryId, rating, comments, isHelpful);
      (r.Ok? <==> service(sent).Ok?) &&
      (r.Ok? ==> r.value == service(sent).value) &&
      (r.Err? && service(sent).error.HttpRaised? ==> r.error == service(sent).error.e) &&
      (r.Err? && service(sent).error.Raised? ==> r.error == HttpError(InternalServerError, service(sent).error.message))
  {
    if rating < 1 || rating > 5 then
      Err(HttpError(BadRequest, RatingMessage))
    else
      match service(FeedbackCreate(queryId, rating, comments, isHelpful))
      case Ok(stored) => Ok(stored)
      case Err(HttpRaised(e)) => Err(e)
      case Err(Raised(message)) => Err(HttpError(InternalServerError, message))
  }

  /** The answer is 400 exactly when the rating is out of range or the
      service itself raised an `HTTPException` with status 400: a plain
      exception from the service always becomes 500. */
  lemma BadRequestIffOutOfRange(queryId: string, rating: int, comments: Option<string>, isHelpful: bool,
                                service: FeedbackService)
    ensures var r := SubmitFeedback(queryId, rating, comments, isHelpful, service);
      var reply := service(FeedbackCreate(queryId, rating, comments, isHelpful));
      (r.Err? && r.error.status == BadRequest) <==>
        (!ValidRating(rating) || (reply.Err? && reply.error.HttpRaised? && reply.error.e.status == BadRequest))
  {
  }

  /** An out-of-range rating is refused whatever the service would do: the
      service is not consulted. */
  lemma OutOfRangeIgnoresService(queryId: string, rating: int, comments: Option<string>, isHelpful: bool,
                                 s1: FeedbackService, s2: FeedbackService)
    requires !ValidRating(rating)
    ensures SubmitFeedback(queryId, rating, comments, isHelpful, s1) == SubmitFeedback(queryId, rating, comments, isHelpful, s2)
  {
  }

  /** A valid rating reaches the service with exactly the submitted fields:
      two services that agree on that one record give the same answer. */
  lemma ServiceSeesSubmittedFields(queryId: string, rating: int, comments: Option<string>, isHelpful: bool,
                                   s1: FeedbackService, s2: FeedbackService)
    requires ValidRating(rating)
    requires s1(FeedbackCreate(queryId, rating, comments, isHelpful)) == s2(FeedbackCreate(queryId, rating, comments, isHelpful))
    ensures SubmitFeedback(queryId, rating, comments, isHelpful, s1) == SubmitFeedback(queryId, rating, comments, isHelpful, s2)
  {
  }
}
