/**
 * `ExceptionHandlingMiddleware`: the outermost handler, which turns an
 * exception escaping the rest of the pipeline into a JSON error response.
 * The JSON serializer is an input (`serialize`); logging is not modelled.
 */
module ExceptionMiddleware {
  import opened Wrappers
  import opened Exceptions

  /** The `ErrorResponse` class, written once and serialized. */
  datatype ErrorResponse = ErrorResponse(statusCode: int, message: string, details: Option<string>)

  const JsonContentType := "application/json"
  const UnauthorizedMessage := "Unauthorized"
  const GenericMessage := "An error occurred while processing your request."

  /**
   * The part of `HttpContext.Response` the middleware touches. The first
   * write sends the headers: from then on `HasStarted` holds and the headers
   * are read-only.
   */
  class HttpResponse {
    var statusCode: int
    var contentType: Option<string>
    var body: seq<string>
    var hasStarted: bool

    /** A fresh response: status 200, no content type, nothing written, not started. */
    constructor()
      ensures statusCode == 200 && contentType == None && body == [] && !hasStarted
    {
      statusCode := 200;
      contentType := None;
      body := [];
      hasStarted := false;
    }
  }

  /** What ASP.NET Core throws when a header is set on a response that has started. */
  const HeadersReadOnly: Exception :=
    Exception(InvalidOperation, "Headers are read-only, response has already started.")

  /** What the next delegate does to the response, and whether it then throws. */
  datatype Downstream = Downstream(statusCode: int, written: seq<string>, thrown: Option<Exception>)

  /**
   * The switch of `HandleExceptionAsync`, as a value. "Not found" is 404
   * and the argument exceptions, subclasses included, are 400, both with
   * the exception's own message; unauthorized access is 401
   * "Unauthorized"; everything else, a rejected save among it, is 500 with
   * the generic message. `Details` is never set.
   */
  function ErrorFor(e: Exception): (r: ErrorResponse)
    ensures r.details.None?
    ensures r.statusCode in {400, 401, 404, 500}
    ensures r.statusCode == 404 <==> e.kind == KeyNotFound
    ensures r.statusCode == 400 <==> e.kind in {Argument, ArgumentNull, ArgumentOutOfRange}
    ensures r.statusCode == 401 <==> e.kind == UnauthorizedAccess
    ensures r.statusCode == 404 || r.statusCode == 400 ==> r.message == e.message
    ensures r.statusCode == 401 ==> r.message == UnauthorizedMessage
    ensures r.statusCode == 500 ==> r.message == GenericMessage
  {
    if e.kind == KeyNotFound then ErrorResponse(404, e.message, None)
    else if IsArgumentException(e.kind) then ErrorResponse(400, e.message, None)
    else if e.kind == UnauthorizedAccess then ErrorResponse(401, UnauthorizedMessage, None)
    else ErrorResponse(500, GenericMessage, None)
  }

  /** A 500 answer does not depend on the exception's text: nothing internal leaks. */
  lemma InternalErrorsLeakNothing(e: Exception, f: Exception)
    requires ErrorFor(e).statusCode == 500 && ErrorFor(f).statusCode == 500
    ensures ErrorFor(e) == ErrorFor(f)
  {
  }

  /** The services' "not found" exception becomes a 404 carrying its message. */
  lemma NotFoundIs404(entity: string, id: int)
    ensures ErrorFor(NotFound(entity, id)) == ErrorResponse(404, NotFound(entity, id).message, None)
  {
  }

  /**
   * `HandleExceptionAsync`: the content type, then the branch of the switch
   * that sets the response status and fills the error document, then the
   * serialized document is written. On a response that has started, the
   * first statement, setting the content type, throws: the exception
   * escapes and the response is left as it was.
   */
  method HandleException(response: HttpResponse, e: Exception, serialize: ErrorResponse -> string)
    returns (escaped: Option<Exception>)
    modifies response
    ensures old(response.hasStarted) ==> escaped == Some(HeadersReadOnly) && unchanged(response)
    ensures !old(response.hasStarted) ==>
      && escaped.None?
      && response.contentType == Some(JsonContentType)
      && response.statusCode == ErrorFor(e).statusCode
      && response.body == old(response.body) + [serialize(ErrorFor(e))]
      && response.hasStarted
  {
    if response.hasStarted {
      return Some(HeadersReadOnly);
    }
    response.contentType := Some(JsonContentType);
    var document := ErrorResponse(0, "", None);
    if e.kind == KeyNotFound {
      response.statusCode := 404;
      document := document.(message := e.message);
      document := document.(statusCode := 404);
    } else if IsArgumentException(e.kind) {
      response.statusCode := 400;
      document := document.(message := e.message);
      document := document.(statusCode := 400);
    } else if e.kind == UnauthorizedAccess {
      response.statusCode := 401;
      document := document.(message := UnauthorizedMessage);
      document := document.(statusCode := 401);
    } else {
      response.statusCode := 500;
      document := document.(message := GenericMessage);
      document := document.(statusCode := 500);
    }
    response.body := response.body + [serialize(document)];
    response.hasStarted := true;
    escaped := None;
  }

  /**
   * `InvokeAsync`: the next delegate runs; only if it throws does the
   * handler change the response, and then the body's status code is the
   * response's status. When the delegate has already written, the response
   * has started, the handler's first header assignment throws, and that
   * exception leaves the middleware with no error document written.
   */
  method Invoke(response: HttpResponse, next: Downstream, serialize: ErrorResponse -> string)
    returns (escaped: Option<Exception>)
    modifies response
    ensures var started := old(response.hasStarted) || next.written != [];
      && (next.thrown.None? || started ==>
            && response.statusCode == next.statusCode
            && response.contentType == old(response.contentType)
            && response.body == old(response.body) + next.written
            && response.hasStarted == started)
      && (next.thrown.None? ==> escaped.None?)
      && (next.thrown.Some? && started ==> escaped == Some(HeadersReadOnly))
      && (next.thrown.Some? && !started ==>
            && escaped.None?
            && response.statusCode == ErrorFor(next.thrown.value).statusCode
            && response.contentType == Some(JsonContentType)
            && response.body == old(response.body) + next.written + [serialize(ErrorFor(next.thrown.value))]
            && response.hasStarted)
  {
    response.statusCode := next.statusCode;
    response.body := response.body + next.written;
    if next.written != [] {
      response.hasStarted := true;
    }
    escaped := None;
    if next.thrown.Some? {
      escaped := HandleException(response, next.thrown.value, serialize);
    }
  }
}
