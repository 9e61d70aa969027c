/**
 * The `/error` endpoint that turns an unhandled exception into a problem
 * response, and the trace id every problem response carries.
 */
module ErrorEndpoint {
  import opened Wrappers
  import opened Errors

  /** The fields of a problem response the application decides. */
  datatype ProblemDetails = ProblemDetails(Status: int, Detail: Option<string>, TraceId: string)

  const GenericDetail: string := "An error occurred."

  /** `Activity.Current?.Id ?? TraceIdentifier`: the tracing span's id if there is one, else the request's. */
  function TraceId(activityId: Option<string>, traceIdentifier: string): (r: string)
    ensures activityId.Some? ==> r == activityId.value
    ensures activityId.None? ==> r == traceIdentifier
  {
    match activityId
    case Some(id) => id
    case None => traceIdentifier
  }

  /**
   * The problem written for the exception the handler recorded (None when it
   * recorded none). A problem created without an explicit status gets 500.
   */
  function Problem(exception: Option<Exception>, activityId: Option<string>, traceIdentifier: string): (p: ProblemDetails)
    ensures p.TraceId == TraceId(activityId, traceIdentifier)
    ensures exception.None? ==> p.Status == Status500InternalServerError && p.Detail == Some(GenericDetail)
    ensures exception.Some? && exception.value.IsServiceException() ==>
              p.Status == exception.value.Status() && p.Detail == Some(exception.value.ErrorMessage)
    ensures exception.Some? && !exception.value.IsServiceException() ==>
              p.Status == Status500InternalServerError && p.Detail.None?
  {
    var traceId := TraceId(activityId, traceIdentifier);
    match exception
    case None => ProblemDetails(Status500InternalServerError, Some(GenericDetail), traceId)
    case Some(e) =>
      if e.IsServiceException() then ProblemDetails(e.Status(), Some(e.ErrorMessage), traceId)
      else ProblemDetails(Status500InternalServerError, None, traceId)
  }

  /** A problem exposes a detail exactly when the exception is a ServiceException, or there was none. */
  lemma DetailOnlyFromServiceExceptions(e: Exception, activityId: Option<string>, traceIdentifier: string)
    ensures Problem(Some(e), activityId, traceIdentifier).Detail.Some? <==> e.IsServiceException()
  {
  }

  /**
   * What a client sees for each error the services raise: a duplicate
   * reference is 403 with its code, a missing order on delete or a missing
   * product is 404 with its code, and a missing order on get or update is a
   * bare 500.
   */
  lemma ServiceErrorsAsProblems(activityId: Option<string>, traceIdentifier: string)
    ensures Problem(Some(ServiceException(Status403Forbidden, OrderWithSameReferenceAlreadyExists)), activityId, traceIdentifier)
            == ProblemDetails(403, Some("OrderWithSameReferenceAlreadyExists"), TraceId(activityId, traceIdentifier))
    ensures Problem(Some(NotFoundException(OrderNotFound)), activityId, traceIdentifier)
            == ProblemDetails(404, Some("OrderNotFound"), TraceId(activityId, traceIdentifier))
    ensures Problem(Some(NotFoundException(ProductNotFound)), activityId, traceIdentifier)
            == ProblemDetails(404, Some("ProductNotFound"), TraceId(activityId, traceIdentifier))
    ensures Problem(Some(InvalidOperationException), activityId, traceIdentifier)
            == ProblemDetails(500, None, TraceId(activityId, traceIdentifier))
  {
  }
}
