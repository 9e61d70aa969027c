/** The exceptions the services throw, and the constants they carry. */
module Errors {

  const Status403Forbidden: int := 403
  const Status404NotFound: int := 404
  const Status500InternalServerError: int := 500

  /** Error codes of the order service. */
  const OrderNotFound: string := "OrderNotFound"
  const OrderWithSameReferenceAlreadyExists: string := "OrderWithSameReferenceAlreadyExists"

  /**
   * Error code of the product service. Its text is assumed to be the
   * constant's name, as for the order error codes.
   */
  const ProductNotFound: string := "ProductNotFound"

  /**
   * An exception thrown out of a service. A NotFoundException is a
   * ServiceException whose status code is fixed at 404; an
   * InvalidOperationException is not a ServiceException at all.
   */
  datatype Exception =
    | ServiceException(StatusCode: int, ErrorMessage: string)
    | NotFoundException(ErrorMessage: string)
    | InvalidOperationException
  {
    /** Whether a `ServiceException se` pattern matches this exception. */
    predicate IsServiceException() {
      ServiceException? || NotFoundException?
    }

    /** The StatusCode property a ServiceException carries. */
    function Status(): (s: int)
      requires IsServiceException()
      ensures NotFoundException? ==> s == Status404NotFound
    {
      if NotFoundException? then Status404NotFound else StatusCode
    }
  }
}
