/** `EndorService` (endor-backend/src/service/endor.service.ts): looks a
    project up by repository URL and assembles a project summary from four
    upstream requests, flattening the grouped finding counts the Endor Labs
    API returns.

    Each upstream request is represented by what it answers (`Fetch`); the
    URLs and query strings it is sent to are not modelled. */
module Service {
  import opened Results
  import opened ProjectTypes
  import opened GroupCounts
  import opened Auth

  /** The backend's Endor Labs connection settings. */
  datatype EndorConfig = EndorConfig(apiUrl: string, apiKey: string, apiSecret: string, namespace: string)

  // -----------------------------------------------------------------------
  // The two normalisers

  /** `getTotalCountsByCategory`: every category string of every key item
      of every group has the group's count added to its entry, which is
      created at 0 the first time the category is seen. */
  method TotalCountsByCategory(data: FindingsPayload) returns (result: CountMap)
    requires data.groupResponse.Some?
    ensures result == Counts(ByCategory, data.groupResponse.value)
  {
    var groups := data.groupResponse.value;
    result := map[];
    var i := 0;
    while i < |groups|
      invariant 0 <= i <= |groups|
      invariant result == Counts(ByCategory, groups[..i])
    {
      var group := groups[i];
      var count := group.count;
      CategoryGroupOpened(groups[..i], count);
      var j := 0;
      while j < |group.key|
        invariant 0 <= j <= |group.key|
        invariant result == Counts(ByCategory, groups[..i] + [Group(group.key[..j], count)])
      {
        var item := group.key[j];
        result := AddCategories(result, groups[..i], group.key[..j], item, count);
        assert group.key[..j + 1] == group.key[..j] + [item];
        j := j + 1;
      }
      assert Group(group.key[..j], count) == group;
      assert groups[..i + 1] == groups[..i] + [group];
      i := i + 1;
    }
    assert groups[..i] == groups;
  }

  /** The innermost loop of `getTotalCountsByCategory`: the categories of
      one key item, each created at 0 if absent and increased by `count`. */
  method AddCategories(result: CountMap, ghost pre: seq<Group>, ghost items: seq<KeyItem>, item: KeyItem, count: nat)
    returns (result': CountMap)
    requires result == Counts(ByCategory, pre + [Group(items, count)])
    ensures result' == Counts(ByCategory, pre + [Group(items + [item], count)])
  {
    CategoryItemOpened(pre, items, item.key, count);
    result' := result;
    var k := 0;
    while k < |item.value|
      invariant 0 <= k <= |item.value|
      invariant result' == Counts(ByCategory, pre + [Group(items + [KeyItem(item.key, item.value[..k])], count)])
    {
      var category := item.value[k];
      if category !in result' {
        result' := result'[category := 0];
      }
      result' := result'[category := result'[category] + count];
      CategoryValueAppended(pre, items, item.key, item.value[..k], category, count);
      assert item.value[..k + 1] == item.value[..k] + [category];
      k := k + 1;
    }
    assert KeyItem(item.key, item.value[..k]) == item;
  }

  /** `getTotalCountsByFindingLevel`: each group's count is added to the
      entry named by its key's element 0, created at 0 on first sight. A
      group whose key has no element 0 makes the runtime throw. */
  method TotalCountsByFindingLevel(data: FindingsPayload) returns (r: Result<CountMap, Error>)
    requires data.groupResponse.Some?
    ensures r == LevelCounts(data.groupResponse.value)
  {
    var groups := data.groupResponse.value;
    var result: CountMap := map[];
    var i := 0;
    while i < |groups|
      invariant 0 <= i <= |groups|
      invariant Keyed(groups[..i])
      invariant result == Counts(ByLevel, groups[..i])
    {
      var group := groups[i];
      if |group.key| == 0 {
        return Err(ReadOfUndefined("value"));
      }
      var level := LevelOf(group);
      if level !in result {
        result := result[level := 0];
      }
      result := result[level := result[level] + group.count];
      LevelGroupAppended(groups[..i], group);
      assert groups[..i + 1] == groups[..i] + [group];
      i := i + 1;
    }
    assert groups[..i] == groups;
    return Ok(result);
  }

  // -----------------------------------------------------------------------
  // What each request contributes

  /** The projects of a project list response, empty when `list` or
      `list.objects` is missing. */
  function ListedProjects(data: ProjectList): seq<Project>
  {
    if data.list.Some? && data.list.value.objects.Some? then data.list.value.objects.value else []
  }

  /** `getProjectByRepoUrl` once the token is known: the first listed
      project, or the error the request, or the empty list, raises. */
  function RepoLookup(token: Result<string, Error>, repoUrl: string, response: Fetch<ProjectList>): (r: Result<Project, Error>)
    ensures r.Ok? <==> token.Ok? && response.Fetched? && |ListedProjects(response.payload)| > 0
    ensures r.Ok? ==> r.value == ListedProjects(response.payload)[0]
    ensures token.Err? ==> r == Err(token.error)
    ensures token.Ok? && response.NotOk? ==>
      r == Err(Error("Error fetching project by repo: " + response.statusText))
    ensures token.Ok? && response.Fetched? && |ListedProjects(response.payload)| == 0 ==>
      r == Err(Error("No project found for repository: " + repoUrl))
  {
    match token
    case Err(e) => Err(e)
    case Ok(_) =>
      match response
      case NotOk(statusText) => Err(Error("Error fetching project by repo: " + statusText))
      case Fetched(data) =>
        if |ListedProjects(data)| == 0 then Err(Error("No project found for repository: " + repoUrl))
        else Ok(ListedProjects(data)[0])
  }

  /** The level counts of a `total` or `reachable` findings request. Both
      requests report a non-ok response with the same message. */
  function LevelTotals(response: Fetch<FindingsPayload>): (r: Result<CountMap, Error>)
    ensures response.Fetched? && response.payload.groupResponse.Some? ==>
      r == LevelCounts(response.payload.groupResponse.value)
    ensures response.NotOk? ==> r == Err(Error("Error fetching total findings: " + response.statusText))
    ensures response.Fetched? && response.payload.groupResponse.None? ==> r == Err(ReadOfUndefined("groups"))
  {
    match response
    case NotOk(statusText) => Err(Error("Error fetching total findings: " + statusText))
    case Fetched(data) =>
      if data.groupResponse.None? then Err(ReadOfUndefined("groups"))
      else LevelCounts(data.groupResponse.value)
  }

  /** The category counts of the findings-by-category request. */
  function CategoryTotals(response: Fetch<FindingsPayload>): (r: Result<CountMap, Error>)
    ensures r.Ok? <==> response.Fetched? && response.payload.groupResponse.Some?
    ensures r.Ok? ==> r.value == Counts(ByCategory, response.payload.groupResponse.value)
  {
    match response
    case NotOk(statusText) => Err(Error("Error fetching findings by Category: " + statusText))
    case Fetched(data) =>
      if data.groupResponse.None? then Err(ReadOfUndefined("groups"))
      else Ok(Counts(ByCategory, data.groupResponse.value))
  }

  /** The project request's outcome. */
  function ProjectOf(response: Fetch<Project>): (r: Result<Project, Error>)
    ensures r.Ok? <==> response.Fetched?
    ensures response.Fetched? ==> r == Ok(response.payload)
    ensures response.NotOk? ==> r == Err(Error("Error fetching project: " + response.statusText))
  {
    match response
    case NotOk(statusText) => Err(Error("Error fetching project: " + statusText))
    case Fetched(project) => Ok(project)
  }

  /** `getProjectSummary` once the token is known: the steps run in order
      (project, total, reachable, categories) and the first that fails
      decides the error; only when all succeed is a summary built. */
  function Summarize(projectUUID: string, token: Result<string, Error>, project: Fetch<Project>,
                     total: Fetch<FindingsPayload>, reachable: Fetch<FindingsPayload>,
                     categories: Fetch<FindingsPayload>): (r: Result<ProjectSummary, Error>)
    ensures r.Ok? <==> token.Ok? && project.Fetched? && LevelTotals(total).Ok?
                       && LevelTotals(reachable).Ok? && CategoryTotals(categories).Ok?
    ensures r.Ok? ==> (
      && r.value.projectUUID == projectUUID
      && r.value.name == project.payload.name
      && r.value.namespace == project.payload.namespace
      && r.value.total == LevelTotals(total).value
      && r.value.reachable == LevelTotals(reachable).value
      && r.value.categories == CategoryTotals(categories).value)
  {
    if token.Err? then Err(token.error)
    else if ProjectOf(project).Err? then Err(ProjectOf(project).error)
    else if LevelTotals(total).Err? then Err(LevelTotals(total).error)
    else if LevelTotals(reachable).Err? then Err(LevelTotals(reachable).error)
    else if CategoryTotals(categories).Err? then Err(CategoryTotals(categories).error)
    else
      var p := project.payload;
      Ok(ProjectSummary(p.name, p.namespace, projectUUID,
        LevelTotals(total).value, LevelTotals(reachable).value, CategoryTotals(categories).value))
  }

  class EndorService {
    const endorConfig: EndorConfig
    const authService: AuthenticationService

    constructor(config: EndorConfig)
      ensures endorConfig == config
      ensures fresh(authService) && authService.tokenResponse == None && authService.exchanges == 0
    {
      endorConfig := config;
      authService := new AuthenticationService();
    }

    /** `getProjectByRepoUrl`: authenticate, list the projects named
        `repoUrl`, and return the first. */
    method GetProjectByRepoUrl(repoUrl: string, now: int, exchange: Exchange, response: Fetch<ProjectList>)
      returns (r: Result<Project, Error>)
      modifies authService
      ensures var s := AuthStep(old(authService.tokenResponse), now, exchange);
        && authService.tokenResponse == s.slot
        && authService.exchanges == old(authService.exchanges) + (if s.exchanged then 1 else 0)
        && r == RepoLookup(s.result, repoUrl, response)
    {
      var token := authService.Auth(now, exchange);
      if token.Err? {
        return Err(token.error);
      }
      match response {
        case NotOk(statusText) =>
          return Err(Error("Error fetching project by repo: " + statusText));
        case Fetched(data) =>
          if data.list.None? || data.list.value.objects.None? || |data.list.value.objects.value| == 0 {
            return Err(Error("No project found for repository: " + repoUrl));
          }
          return Ok(data.list.value.objects.value[0]);
      }
    }

    /** `getProjectSummary`: authenticate, then fetch the project, the
        total and reachable counts by level and the counts by category, in
        that order, stopping at the first failure. */
    method GetProjectSummary(projectUUID: string, now: int, exchange: Exchange, project: Fetch<Project>,
                             total: Fetch<FindingsPayload>, reachable: Fetch<FindingsPayload>,
                             categories: Fetch<FindingsPayload>)
      returns (r: Result<ProjectSummary, Error>)
      modifies authService
      ensures var s := AuthStep(old(authService.tokenResponse), now, exchange);
        && authService.tokenResponse == s.slot
        && authService.exchanges == old(authService.exchanges) + (if s.exchanged then 1 else 0)
        && r == Summarize(projectUUID, s.result, project, total, reachable, categories)
    {
      var token := authService.Auth(now, exchange);
      if token.Err? {
        return Err(token.error);
      }
      var projectData := GetProject(project);
      if projectData.Err? {
        return Err(projectData.error);
      }
      var totalVulns := GetLevelCounts(total);
      if totalVulns.Err? {
        return Err(totalVulns.error);
      }
      var reachableVulns := GetLevelCounts(reachable);
      if reachableVulns.Err? {
        return Err(reachableVulns.error);
      }
      var findingsCountByCategory := GetFindingsCountByCategory(categories);
      if findingsCountByCategory.Err? {
        return Err(findingsCountByCategory.error);
      }
      var p := projectData.value;
      return Ok(ProjectSummary(p.name, p.namespace, projectUUID,
        totalVulns.value, reachableVulns.value, findingsCountByCategory.value));
    }

    /** `getProject`: the parsed body, or an error for a non-ok response. */
    method GetProject(response: Fetch<Project>) returns (r: Result<Project, Error>)
      ensures r == ProjectOf(response)
    {
      match response {
        case NotOk(statusText) => return Err(Error("Error fetching project: " + statusText));
        case Fetched(p) => return Ok(p);
      }
    }

    /** `getTotalVulnerabilities` and `getReachableVulnerabilities`, which
        differ only in the filter they send: an error for a non-ok response,
        otherwise the level normaliser applied to the body. */
    method GetLevelCounts(response: Fetch<FindingsPayload>) returns (r: Result<CountMap, Error>)
      ensures r == LevelTotals(response)
    {
      match response {
        case NotOk(statusText) =>
          return Err(Error("Error fetching total findings: " + statusText));
        case Fetched(data) =>
          if data.groupResponse.None? {
            return Err(ReadOfUndefined("groups"));
          }
          r := TotalCountsByFindingLevel(data);
      }
    }

    /** `getFindingsCountByCategory`: an error for a non-ok response,
        otherwise the category normaliser applied to the body. */
    method GetFindingsCountByCategory(response: Fetch<FindingsPayload>) returns (r: Result<CountMap, Error>)
      ensures r == CategoryTotals(response)
    {
      match response {
        case NotOk(statusText) =>
          return Err(Error("Error fetching findings by Category: " + statusText));
        case Fetched(data) =>
          if data.groupResponse.None? {
            return Err(ReadOfUndefined("groups"));
          }
          var counts := TotalCountsByCategory(data);
          return Ok(counts);
      }
    }
  }

  // -----------------------------------------------------------------------
  // Properties of the assembled summary

  /** The first failing step decides the error, whatever the later
      requests would have answered. */
  lemma FirstFailureWins(projectUUID: string, token: Result<string, Error>, project: Fetch<Project>,
                         total: Fetch<FindingsPayload>, reachable: Fetch<FindingsPayload>,
                         categories: Fetch<FindingsPayload>)
    ensures token.Err? ==> Summarize(projectUUID, token, project, total, reachable, categories) == Err(token.error)
    ensures token.Ok? && project.NotOk? ==>
      Summarize(projectUUID, token, project, total, reachable, categories)
        == Err(Error("Error fetching project: " + project.statusText))
    ensures token.Ok? && project.Fetched? && total.NotOk? ==>
      Summarize(projectUUID, token, project, total, reachable, categories)
        == Err(Error("Error fetching total findings: " + total.statusText))
    ensures token.Ok? && project.Fetched? && LevelTotals(total).Ok? && reachable.NotOk? ==>
      Summarize(projectUUID, token, project, total, reachable, categories)
        == Err(Error("Error fetching total findings: " + reachable.statusText))
    ensures token.Ok? && project.Fetched? && LevelTotals(total).Ok? && LevelTotals(reachable).Ok? && categories.NotOk? ==>
      Summarize(projectUUID, token, project, total, reachable, categories)
        == Err(Error("Error fetching findings by Category: " + categories.statusText))
  {
  }

  /** A failing total request and a failing reachable request with the same
      status text raise the same error: the message does not say which. */
  lemma TotalAndReachableIndistinguishable(projectUUID: string, token: string, project: Project,
                                          ok: Fetch<FindingsPayload>, statusText: string,
                                          categories: Fetch<FindingsPayload>)
    requires LevelTotals(ok).Ok?
    ensures Summarize(projectUUID, Ok(token), Fetched(project), NotOk(statusText), ok, categories)
         == Summarize(projectUUID, Ok(token), Fetched(project), ok, NotOk(statusText), categories)
  {
  }

  /** A summary is built from well-formed responses only: its three count
      maps are the normalisers' maps of the three bodies. */
  lemma SummaryCounts(projectUUID: string, token: string, project: Project,
                      total: seq<Group>, reachable: seq<Group>, categories: seq<Group>)
    requires Keyed(total) && Keyed(reachable)
    ensures Summarize(projectUUID, Ok(token), Fetched(project), Fetched(FindingsPayload(Some(total))),
                      Fetched(FindingsPayload(Some(reachable))), Fetched(FindingsPayload(Some(categories))))
         == Ok(ProjectSummary(project.name, project.namespace, projectUUID,
                 Counts(ByLevel, total), Counts(ByLevel, reachable), Counts(ByCategory, categories)))
  {
  }

  /** A response without `group_response` makes the summary fail with the
      runtime's `TypeError`. */
  lemma MissingGroupResponseFails(projectUUID: string, token: string, project: Project,
                                  reachable: Fetch<FindingsPayload>, categories: Fetch<FindingsPayload>)
    ensures Summarize(projectUUID, Ok(token), Fetched(project), Fetched(FindingsPayload(None)), reachable, categories)
         == Err(Error("Cannot read properties of undefined (reading 'groups')"))
  {
    assert ReadOfUndefined("groups").message == "Cannot read properties of undefined (reading 'groups')";
  }
}
