/** `EndorBackendClient` (endor-frontend/src/api/EndorBackendClient.ts): the
    frontend's caller of the backend's `/summary` route. The discovery of the
    backend's base URL and the request itself are not modelled: the base URL
    and the response are given. */
module BackendClient {
  import opened Results
  import opened Wire

  /** The error the client throws: a message and an `errorType` property. */
  datatype ClientError = ClientError(message: string, errorType: string)

  /** The POST the client sends: where, and the JSON body it carries. */
  datatype SummaryPost = SummaryPost(url: string, projectUUID: string, repoUrl: string)

  /** What the client reads of a response: `ok`, `statusText` and the
      parsed body. */
  datatype HttpResponse = HttpResponse(ok: bool, statusText: string, data: Body)

  /** JavaScript's `a || b` on strings: `a` unless it is "". */
  function Or(a: string, b: string): (r: string)
    ensures a != "" ==> r == a
    ensures a == "" ==> r == b
    ensures r == "" <==> a == "" && b == ""
  {
    if a != "" then a else b
  }

  /** The `message` and `errorType` members of a body; a summary has
      neither. */
  function MessageOf(data: Body): string {
    if data.ErrorBody? then data.message else ""
  }

  function ErrorTypeOf(data: Body): string {
    if data.ErrorBody? then data.errorType else ""
  }

  /** The first half of `getProjectSummary`: the check that at least one
      identifier is set, then the request to `<baseUrl>/summary` carrying
      both identifiers. */
  function PrepareSummaryRequest(baseUrl: string, projectUUID: string, repoUrl: string): (r: Result<SummaryPost, ClientError>)
    ensures r.Err? <==> projectUUID == "" && repoUrl == ""
    ensures r.Err? ==> r.error == ClientError("Missing required annotations", ErrorTypeName(MissingAnnotation))
    ensures r.Ok? ==> r.value == SummaryPost(baseUrl + "/summary", projectUUID, repoUrl)
  {
    if projectUUID == "" && repoUrl == "" then
      Err(ClientError("Missing required annotations", ErrorTypeName(MissingAnnotation)))
    else
      Ok(SummaryPost(baseUrl + "/summary", projectUUID, repoUrl))
  }

  /** `handleResponse`: the parsed body of an ok response as it is;
      otherwise an error whose message falls back from the body's `message`
      to the status text to "Unknown error", and whose `errorType` falls back
      to API_ERROR. */
  function HandleResponse(response: HttpResponse): (r: Result<Body, ClientError>)
    ensures response.ok <==> r.Ok?
    ensures r.Ok? ==> r.value == response.data
    ensures r.Err? ==> r.error.message != "" && r.error.errorType != ""
    ensures r.Err? && MessageOf(response.data) != "" ==> r.error.message == MessageOf(response.data)
    ensures r.Err? && MessageOf(response.data) == "" && response.statusText != "" ==>
      r.error.message == response.statusText
    ensures r.Err? && MessageOf(response.data) == "" && response.statusText == "" ==>
      r.error.message == "Unknown error"
    ensures r.Err? && ErrorTypeOf(response.data) != "" ==> r.error.errorType == ErrorTypeOf(response.data)
    ensures r.Err? && ErrorTypeOf(response.data) == "" ==> r.error.errorType == ErrorTypeName(ApiError)
  {
    if response.ok then Ok(response.data)
    else
      var message := Or(Or(MessageOf(response.data), response.statusText), "Unknown error");
      Err(ClientError(message, Or(ErrorTypeOf(response.data), ErrorTypeName(ApiError))))
  }

  /** `getProjectSummary`: the check, then the response handling. */
  function GetProjectSummary(baseUrl: string, projectUUID: string, repoUrl: string, response: HttpResponse)
    : (r: Result<Body, ClientError>)
    ensures projectUUID == "" && repoUrl == "" ==> r == Err(PrepareSummaryRequest(baseUrl, projectUUID, repoUrl).error)
    ensures projectUUID != "" || repoUrl != "" ==> r == HandleResponse(response)
  {
    match PrepareSummaryRequest(baseUrl, projectUUID, repoUrl)
    case Err(e) => Err(e)
    case Ok(_) => HandleResponse(response)
  }

  /** Without identifiers the client throws before anything is sent: its
      answer does not depend on the response. */
  lemma MissingAnnotationsBeforeRequest(baseUrl: string, response: HttpResponse, response': HttpResponse)
    ensures GetProjectSummary(baseUrl, "", "", response) == GetProjectSummary(baseUrl, "", "", response')
    ensures GetProjectSummary(baseUrl, "", "", response)
         == Err(ClientError("Missing required annotations", "MISSING_ANNOTATION"))
  {
  }
}
