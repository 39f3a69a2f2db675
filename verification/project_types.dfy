/** The shapes of the data the backend exchanges with the Endor Labs API
    (endor-backend/src/service/types/project.ts), already decoded from JSON. */
module ProjectTypes {
  import opened Results

  /** One element of a parsed group key, `{key, value}`. */
  datatype KeyItem = KeyItem(key: string, value: seq<string>)

  /** One entry of `group_response.groups`: its key, parsed from the JSON
      text the entry is filed under, and its `aggregation_count.count`. */
  datatype Group = Group(key: seq<KeyItem>, count: nat)

  /** A findings aggregation response. `groupResponse` is `None` when the
      body has no `group_response` member. */
  datatype FindingsPayload = FindingsPayload(groupResponse: Option<seq<Group>>)

  /** `KeyValueArray`: a name mapped to its `{count}`. */
  type CountMap = map<string, nat>

  /** The parts of a `Project` the plugin reads: `uuid`, `meta.name` and
      `tenant_meta.namespace`. */
  datatype Project = Project(uuid: string, name: string, namespace: string)

  /** A project list response: `list` and `list.objects` may each be missing. */
  datatype ProjectList = ProjectList(list: Option<ProjectListBody>)
  datatype ProjectListBody = ProjectListBody(objects: Option<seq<Project>>)

  datatype ProjectSummary = ProjectSummary(
    name: string,
    namespace: string,
    projectUUID: string,
    total: CountMap,
    reachable: CountMap,
    categories: CountMap)

  /** The outcome of one upstream `fetch`: a parsed body when `response.ok`,
      otherwise the response's `statusText`. */
  datatype Fetch<T> = Fetched(payload: T) | NotOk(statusText: string)

  /** The `TypeError` the runtime throws when a property of `undefined` is read. */
  function ReadOfUndefined(property: string): Error {
    Error("Cannot read properties of undefined (reading '" + property + "')")
  }
}
