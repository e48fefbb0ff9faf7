/**
 * `callTargetUriAndWaitForTelemetry`: issue the test's request, if it has one, check
 * the response, and (after the settle wait) check that telemetry arrived when the
 * test expects some. The HTTP response and the ingestion server's `hasData()` are inputs.
 */
module Request {
  import opened Wrappers
  import opened Errors
  import opened Metadata

  const SupportedMethod: string := "GET"

  /** What `HttpHelper.get` did: threw, or returned a possibly null body. */
  datatype Response = GetThrew | Returned(content: Option<string>)

  /**
   * The outcome of the request step: `Success(None)` when no request is made,
   * `Success(Some(url))` when `url` was requested and every check passed.
   */
  function RequestStep(target: Option<Target>, baseUrl: string, response: Response,
                       expectSomeTelemetry: bool, hasData: bool): (r: Result<Option<string>, Error>)
    ensures r == Success(None) <==> target.None?
    ensures target.Some? && target.value.httpMethod != SupportedMethod ==>
              r == Failure(UnsupportedMethod(target.value.httpMethod))
    ensures target.Some? && target.value.httpMethod == SupportedMethod && response.GetThrew? ==>
              r == Failure(RequestFailed(baseUrl + target.value.uri))
    ensures r.Success? && target.Some? ==>
              && r.value == Some(baseUrl + target.value.uri)
              && target.value.httpMethod == SupportedMethod
              && response.Returned? && response.content.Some? && response.content.value != ""
              && (expectSomeTelemetry ==> hasData)
    ensures (&& target.Some? && target.value.httpMethod == SupportedMethod
             && response.Returned? && response.content.Some? && response.content.value != ""
             && (expectSomeTelemetry ==> hasData)) ==> r.Success?
  {
    match target
    case None => Success(None)
    case Some(t) =>
      if t.httpMethod != SupportedMethod then Failure(UnsupportedMethod(t.httpMethod))
      else if response.GetThrew? then Failure(RequestFailed(baseUrl + t.uri))
      else if response.content.None? then Failure(NullResponse(t.uri))
      else if response.content.value == "" then Failure(EmptyResponse(t.uri))
      else if expectSomeTelemetry && !hasData then Failure(NoTelemetry)
      else Success(Some(baseUrl + t.uri))
  }

  /** When no telemetry is expected, the presence of telemetry is not checked either way. */
  lemma NoAbsenceCheck(target: Option<Target>, baseUrl: string, response: Response)
    ensures RequestStep(target, baseUrl, response, false, true) == RequestStep(target, baseUrl, response, false, false)
  {
  }
}
