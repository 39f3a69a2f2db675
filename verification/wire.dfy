/** The JSON bodies the backend's `/summary` route sends and the frontend
    client reads (endor-backend/src/service/router.ts and
    endor-frontend/src/types.ts). */
module Wire {
  import opened ProjectTypes

  /** `EndorErrorType`, declared identically on both sides. */
  datatype ErrorType = MissingAnnotation | ProjectNotFound | RepoNotFound | ApiError

  /** The string each error type is sent as. */
  function ErrorTypeName(t: ErrorType): (s: string)
    ensures s != ""
  {
    match t
    case MissingAnnotation => "MISSING_ANNOTATION"
    case ProjectNotFound => "PROJECT_NOT_FOUND"
    case RepoNotFound => "REPO_NOT_FOUND"
    case ApiError => "API_ERROR"
  }

  /** Distinct error types are sent as distinct strings. */
  lemma ErrorTypeNamesDistinct(t: ErrorType, u: ErrorType)
    requires ErrorTypeName(t) == ErrorTypeName(u)
    ensures t == u
  {
  }

  /** A response body: a project summary, or an error object
      `{status, errorType, message}`. An error object's members are strings;
      "" stands for a member that is missing. */
  datatype Body =
    | SummaryBody(summary: ProjectSummary)
    | ErrorBody(status: string, errorType: string, message: string)

  /** The error object the backend sends for an error type and message. */
  function Failed(t: ErrorType, message: string): Body {
    ErrorBody("failed", ErrorTypeName(t), message)
  }

  /** An HTTP response of the backend: its status code and body. */
  datatype Response = Response(status: nat, body: Body)
}
