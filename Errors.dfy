/** The native GError record and the TrackerException built from it. */
module Errors {

  /**
   * GError: the layout declares domain, code and message; only code and
   * message are ever read (`getCode`, `getMessage`).
   */
  datatype GError = GError(domain: int, code: int, message: string)

  /** TrackerException: the exception message and `getErrorCode()`. */
  datatype TrackerException = TrackerException(message: string, errorCode: int)

  /** `new TrackerException(error)`: message and code taken from the GError. */
  function NewTrackerException(error: GError): (x: TrackerException)
    ensures x.errorCode == error.code && x.message == error.message
  {
    TrackerException(error.message, error.code)
  }

  /**
   * Two GErrors give the same exception exactly when their code and message
   * agree: nothing but the domain is lost.
   */
  lemma SameExceptionIff(e1: GError, e2: GError)
    ensures NewTrackerException(e1) == NewTrackerException(e2) <==>
              e1.code == e2.code && e1.message == e2.message
  {
  }

  /** The domain of a GError does not reach the exception. */
  lemma DomainNotCarried(e: GError, domain: int)
    ensures NewTrackerException(e) == NewTrackerException(e.(domain := domain))
  {
  }
}
