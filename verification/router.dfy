/** The `/summary` route of the backend (endor-backend/src/service/router.ts):
    it resolves the project to summarise, asks the service for its summary,
    and turns every outcome into an HTTP status and body.

    The service is represented by the outcome of each of its two calls, as
    a function of the argument the route passes. */
module Router {
  import opened Results
  import opened JsString
  import opened ProjectTypes
  import opened Wire

  /** The two members of the request body the route reads. A member that is
      missing, or any other falsy value, is "". */
  datatype SummaryRequest = SummaryRequest(projectUUID: string, repoUrl: string)

  /** The service calls the route makes, in order. */
  datatype ServiceCall = LookupRepo(repoUrl: string) | FetchSummary(projectUUID: string)

  /** The test that turns a failed summary into "Project not found": the
      message contains "not found", "404" or "Not Found", case-sensitively. */
  predicate IsNotFoundMessage(message: string) {
    Includes(message, "not found") || Includes(message, "404") || Includes(message, "Not Found")
  }

  /** The response for the outcome of `getProjectSummary`: the summary as it
      is, "Project not found" for a not-found message, and an API error
      carrying the message otherwise. */
  function SummaryResponse(outcome: Result<ProjectSummary, Error>): (resp: Response)
    ensures outcome.Ok? ==> resp == Response(200, SummaryBody(outcome.value))
    ensures outcome.Err? && IsNotFoundMessage(outcome.error.message) ==>
      resp == Response(404, Failed(ProjectNotFound, "Project not found"))
    ensures outcome.Err? && !IsNotFoundMessage(outcome.error.message) ==>
      resp == Response(500, Failed(ApiError, "API error: " + outcome.error.message))
  {
    match outcome
    case Ok(summary) => Response(200, SummaryBody(summary))
    case Err(error) =>
      if IsNotFoundMessage(error.message) then Response(404, Failed(ProjectNotFound, "Project not found"))
      else Response(500, Failed(ApiError, "API error: " + error.message))
  }

  /** The handler of `POST /summary`. */
  method HandleSummary(body: SummaryRequest,
                       lookup: string -> Result<Project, Error>,
                       summary: string -> Result<ProjectSummary, Error>)
    returns (resp: Response, calls: seq<ServiceCall>)
    ensures body.projectUUID == "" && body.repoUrl == "" ==>
      resp == Response(400, Failed(MissingAnnotation, "Missing required annotations")) && calls == []
    ensures body.projectUUID != "" ==>
      calls == [FetchSummary(body.projectUUID)] && resp == SummaryResponse(summary(body.projectUUID))
    ensures body.projectUUID == "" && body.repoUrl != "" && lookup(body.repoUrl).Err? ==>
      calls == [LookupRepo(body.repoUrl)] && resp == Response(404, Failed(RepoNotFound, "Repository not scanned"))
    ensures body.projectUUID == "" && body.repoUrl != "" && lookup(body.repoUrl).Ok? ==>
      var uuid := lookup(body.repoUrl).value.uuid;
      calls == [LookupRepo(body.repoUrl), FetchSummary(uuid)] && resp == SummaryResponse(summary(uuid))
  {
    var projectUUID := body.projectUUID;
    calls := [];
    if projectUUID == "" && body.repoUrl == "" {
      return Response(400, Failed(MissingAnnotation, "Missing required annotations")), calls;
    }
    if projectUUID == "" && body.repoUrl != "" {
      calls := calls + [LookupRepo(body.repoUrl)];
      var project := lookup(body.repoUrl);
      if project.Err? {
        return Response(404, Failed(RepoNotFound, "Repository not scanned")), calls;
      }
      projectUUID := project.value.uuid;
    }
    calls := calls + [FetchSummary(projectUUID)];
    var outcome := summary(projectUUID);
    resp := SummaryResponse(outcome);
  }

  /** Any message that contains "Not Found" is reported as a missing
      project, whatever else it says: an upstream 404 on any of the summary's
      requests, or on the token exchange, looks the same. */
  lemma NotFoundAnywhere(prefix: string, suffix: string)
    ensures SummaryResponse(Err(Error(prefix + "Not Found" + suffix)))
         == Response(404, Failed(ProjectNotFound, "Project not found"))
  {
    IncludesInfix(prefix, "Not Found", suffix);
  }

  /** The test is case-sensitive: an upper-case "NOT FOUND" is an API error. */
  lemma UpperCaseIsApiError()
    ensures SummaryResponse(Err(Error("NOT FOUND"))).status == 500
  {
    var m := "NOT FOUND";
    assert !OccursAt(m, "Not Found", 0) by { assert m[1] != "Not Found"[1]; }
    assert !OccursAt(m, "not found", 0) by { assert m[0] != "not found"[0]; }
    assert IndexFrom(m, "Not Found", 1) == None;
    assert IndexFrom(m, "not found", 1) == None;
    assert forall j :: 0 <= j <= |m| ==> !OccursAt(m, "404", j) by {
      forall j | 0 <= j <= |m| ensures !OccursAt(m, "404", j) {
        if j + 3 <= |m| {
          assert m[j..j + 3][0] == m[j] != '4';
        }
      }
    }
  }

  /** Every response the route sends for the outcome of `getProjectSummary`
      has status 200, 404 or 500, only a summary is sent with 200, and every
      error body names its type and carries a message. (The 400 and the
      REPO_NOT_FOUND responses sent before the summary is asked for are
      stated by `HandleSummary`.) */
  lemma ResponseShapes(outcome: Result<ProjectSummary, Error>)
    ensures var resp := SummaryResponse(outcome);
      (resp.status == 200 <==> resp.body.SummaryBody?)
      && (resp.status in {200, 404, 500})
      && (resp.body.ErrorBody? ==> resp.body.errorType != "" && resp.body.message != "")
  {
  }
}
