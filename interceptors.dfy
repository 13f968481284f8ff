/**
 * Normalising a thrown value into the API error record the admin app
 * shows, and the status checks over thrown values.
 */
module Interceptors {
  import opened Wrappers
  import opened Js

  /** The body of an error response, as far as it is read. */
  datatype ResponseData = ResponseData(message: Option<string>, error: Option<string>, details: Option<Json>)
  datatype AxiosResponse = AxiosResponse(status: int, data: Option<ResponseData>)

  /**
   * What can be thrown: an `AxiosError` (with a response, or only a
   * request that was sent), another `Error`, or a value that is not an
   * `Error` at all.
   */
  datatype Thrown =
    | AxiosError(message: string, response: Option<AxiosResponse>, request: bool)
    | PlainError(message: string)
    | NotAnError

  datatype ApiError = ApiError(message: string, statusCode: int, error: Option<string>, details: Option<Json>)

  const NoResponseMessage := "No response from server. Please check your connection."
  const UnexpectedMessage := "An unexpected error occurred"

  predicate Truthy(s: Option<string>) { s.Some? && s.value != "" }

  /** `response.data?.message || response.data?.error || error.message`. */
  function ResponseMessage(data: Option<ResponseData>, fallback: string): (r: string)
    ensures data.Some? && Truthy(data.value.message) ==> r == data.value.message.value
    ensures data.Some? && !Truthy(data.value.message) && Truthy(data.value.error) ==> r == data.value.error.value
    ensures (data.None? || (!Truthy(data.value.message) && !Truthy(data.value.error))) ==> r == fallback
  {
    if data.Some? && Truthy(data.value.message) then data.value.message.value
    else if data.Some? && Truthy(data.value.error) then data.value.error.value
    else fallback
  }

  /** `handleApiError(error)`. */
  function HandleApiError(e: Thrown): ApiError {
    if e.AxiosError? && e.response.Some? then
      var resp := e.response.value;
      ApiError(ResponseMessage(resp.data, e.message), resp.status,
               if resp.data.Some? then resp.data.value.error else None,
               if resp.data.Some? then resp.data.value.details else None)
    else if e.AxiosError? && e.request then
      ApiError(NoResponseMessage, 0, Some("NETWORK_ERROR"), None)
    else
      ApiError(if e.NotAnError? then UnexpectedMessage else e.message, 500, Some("UNKNOWN_ERROR"), None)
  }

  /** The three shapes of the result: the server's status, a network failure, or an unknown 500. */
  lemma HandleApiErrorCases(e: Thrown)
    ensures e.AxiosError? && e.response.Some? ==>
      HandleApiError(e).statusCode == e.response.value.status
      && HandleApiError(e).message == ResponseMessage(e.response.value.data, e.message)
    ensures e.AxiosError? && e.response.None? && e.request ==>
      HandleApiError(e) == ApiError(NoResponseMessage, 0, Some("NETWORK_ERROR"), None)
    ensures !e.AxiosError? || (e.response.None? && !e.request) ==>
      HandleApiError(e).statusCode == 500 && HandleApiError(e).error == Some("UNKNOWN_ERROR")
      && HandleApiError(e).details.None?
      && HandleApiError(e).message == (if e.NotAnError? then UnexpectedMessage else e.message)
  {
  }

  /** `isErrorStatus(error, statusCode)`. */
  predicate IsErrorStatus(e: Thrown, statusCode: int) {
    e.AxiosError? && e.response.Some? && e.response.value.status == statusCode
  }

  /** A status check holds exactly for an error with a response whose normalised status is that code. */
  lemma IsErrorStatusAgrees(e: Thrown, statusCode: int)
    ensures IsErrorStatus(e, statusCode) <==>
      e.AxiosError? && e.response.Some? && HandleApiError(e).statusCode == statusCode
    ensures !e.AxiosError? ==> !IsErrorStatus(e, statusCode)
  {
  }

  predicate IsUnauthorizedError(e: Thrown) { IsErrorStatus(e, 401) }
  predicate IsForbiddenError(e: Thrown) { IsErrorStatus(e, 403) }
  predicate IsNotFoundError(e: Thrown) { IsErrorStatus(e, 404) }

  /** The three named checks are mutually exclusive, and need a response. */
  lemma NamedChecksExclusive(e: Thrown)
    ensures IsUnauthorizedError(e) ==> !IsForbiddenError(e) && !IsNotFoundError(e)
    ensures IsForbiddenError(e) ==> !IsNotFoundError(e)
    ensures IsUnauthorizedError(e) || IsForbiddenError(e) || IsNotFoundError(e) ==> e.AxiosError? && e.response.Some?
  {
  }
}
