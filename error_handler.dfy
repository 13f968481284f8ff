/**
 * The application-wide error handler: a lazily created single instance
 * whose queries all go through the interceptor's normalisation.
 */
module ErrorHandling {
  import opened Wrappers
  import opened Interceptors

  class ErrorHandler {
    constructor() {}

    /** `handle(error)`. */
    function Handle(e: Thrown): ApiError {
      HandleApiError(e)
    }

    /** `getMessage(error)`: the normalised message. */
    function GetMessage(e: Thrown): string {
      Handle(e).message
    }

    /** `isNetworkError(error)`. */
    predicate IsNetworkError(e: Thrown) {
      var a := Handle(e);
      a.statusCode == 0 || a.error == Some("NETWORK_ERROR")
    }

    /** `isAuthError(error)`. */
    predicate IsAuthError(e: Thrown) {
      var a := Handle(e);
      a.statusCode == 401 || a.statusCode == 403
    }

    /** `isValidationError(error)`. */
    predicate IsValidationError(e: Thrown) {
      var a := Handle(e);
      a.statusCode == 400 || a.statusCode == 422
    }
  }

  /** What the queries mean in terms of the thrown value. */
  lemma QueriesOnThrown(h: ErrorHandler, e: Thrown)
    ensures h.GetMessage(e) == HandleApiError(e).message
    ensures h.IsNetworkError(e) <==>
      e.AxiosError? && (if e.response.Some? then e.response.value.status == 0
                          || (e.response.value.data.Some? && e.response.value.data.value.error == Some("NETWORK_ERROR"))
                        else e.request)
    ensures h.IsAuthError(e) <==> IsErrorStatus(e, 401) || IsErrorStatus(e, 403)
    ensures h.IsValidationError(e) <==> IsErrorStatus(e, 400) || IsErrorStatus(e, 422)
  {
  }

  /** A value that is not an Axios error maps to status 500, so it is never a network, auth or validation error. */
  lemma NonAxiosIsNoneOfThem(h: ErrorHandler, e: Thrown)
    requires !e.AxiosError?
    ensures !h.IsNetworkError(e) && !h.IsAuthError(e) && !h.IsValidationError(e)
    ensures h.GetMessage(e) == (if e.NotAnError? then UnexpectedMessage else e.message)
  {
  }

  /** The holder of the static `instance` field. */
  class Registry {
    var instance: ErrorHandler?

    constructor()
      ensures instance == null
    {
      instance := null;
    }

    /** `ErrorHandler.getInstance()`: creates the handler on the first call and returns it ever after. */
    method GetInstance() returns (h: ErrorHandler)
      modifies this
      ensures old(instance) != null ==> h == old(instance)
      ensures old(instance) == null ==> fresh(h)
      ensures instance == h
    {
      if instance == null {
        instance := new ErrorHandler();
      }
      h := instance;
    }
  }

  /** Two calls in a row return the same handler. */
  method SameInstance(r: Registry) returns (a: ErrorHandler, b: ErrorHandler)
    modifies r
    ensures a == b && r.instance == a
  {
    a := r.GetInstance();
    b := r.GetInstance();
  }
}
