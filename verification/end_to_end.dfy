/** Properties that connect the modules: what the frontend sees of the
    backend's answers, how the page's metrics relate to the service's
    category counts, and which identifiers the page sends. */
module EndToEnd {
  import opened Results
  import opened ProjectTypes
  import opened GroupCounts
  import opened Wire
  import opened Router
  import opened BackendClient
  import EntityConfig
  import EndorPage

  /** An error the route reports reaches the page with the route's own
      message and error type, whatever the status text. */
  lemma ClientSeesRouteErrors(outcome: Result<ProjectSummary, Error>, statusText: string)
    requires outcome.Err?
    ensures var resp := SummaryResponse(outcome);
      && resp.body.ErrorBody?
      && HandleResponse(HttpResponse(false, statusText, resp.body))
           == Err(ClientError(resp.body.message, resp.body.errorType))
  {
  }

  /** A summary the route sends reaches the page unchanged. */
  lemma ClientSeesSummary(summary: ProjectSummary, statusText: string)
    ensures var resp := SummaryResponse(Ok(summary));
      HandleResponse(HttpResponse(true, statusText, resp.body)) == Ok(SummaryBody(summary))
  {
  }

  /** A repository the backend could not resolve reaches the page as
      REPO_NOT_FOUND. */
  lemma ClientSeesRepoNotFound(statusText: string)
    ensures HandleResponse(HttpResponse(false, statusText, Failed(RepoNotFound, "Repository not scanned")))
         == Err(ClientError("Repository not scanned", "REPO_NOT_FOUND"))
  {
  }

  /** The client refuses exactly the requests the route would answer with
      400, with the route's message and error type, so a request it sends
      never meets the route's 400. */
  lemma ClientCheckMatchesRouteCheck(baseUrl: string, projectUUID: string, repoUrl: string)
    ensures PrepareSummaryRequest(baseUrl, projectUUID, repoUrl).Err? <==> projectUUID == "" && repoUrl == ""
    ensures PrepareSummaryRequest(baseUrl, projectUUID, repoUrl).Err? ==>
      var body := Failed(MissingAnnotation, "Missing required annotations");
      PrepareSummaryRequest(baseUrl, projectUUID, repoUrl).error == ClientError(body.message, body.errorType)
  {
  }

  /** Each metric on the page is the service's total for its category: the
      sum over the groups of count times occurrences, 0 if no group lists it. */
  lemma {:induction false} MetricIsCategoryTotal(groups: seq<Group>, m: EndorPage.Metric)
    ensures EndorPage.MetricValue(Some(Counts(ByCategory, groups)), m)
         == Total(ByCategory, groups, EndorPage.CategoryName(m))
  {
    var name := EndorPage.CategoryName(m);
    if name !in Names(ByCategory, groups) {
      TotalOfUnnamed(ByCategory, groups, name);
    }
  }

  // -----------------------------------------------------------------------
  // The identifiers the page sends

  const SOURCE_ONLY: EntityConfig.Annotations :=
    Some(map[EntityConfig.SOURCE_LOCATION := "url:https://github.com/acme/app"])

  /** As written, an entity annotated only with its source location is
      refused by the client before any request: the page sends the empty
      namespace where the resolved repository URL belongs. */
  lemma SourceLocationLostAsWritten()
    ensures var d := EntityConfig.EntityDataOf(SOURCE_ONLY);
      var args := EndorPage.SummaryArgumentsAsWritten(d);
      && d.repoUrl == "url:https://github.com/acme/app"
      && PrepareSummaryRequest("", args.0, args.1).Err?
  {
    var a := SOURCE_ONLY.value;
    assert EntityConfig.ENDOR_NAMESPACE !in a;
    assert EntityConfig.ENDOR_PROJECT_UUID !in a;
  }

  /** As written, an entity with a namespace and a source location sends
      its namespace as the repository URL. */
  lemma NamespaceSentAsRepoUrl(namespace: string, location: string)
    requires namespace != "" && location != ""
    ensures var a := Some(map[EntityConfig.ENDOR_NAMESPACE := namespace, EntityConfig.SOURCE_LOCATION := location]);
      var d := EntityConfig.EntityDataOf(a);
      var args := EndorPage.SummaryArgumentsAsWritten(d);
      && d.repoUrl == location
      && PrepareSummaryRequest("", args.0, args.1) == Ok(SummaryPost("/summary", "", namespace))
  {
    assert EntityConfig.ENDOR_NAMESPACE[0] != EntityConfig.SOURCE_LOCATION[0];
    assert EntityConfig.ENDOR_PROJECT_UUID[14] != EntityConfig.ENDOR_NAMESPACE[14];
    var a := map[EntityConfig.ENDOR_NAMESPACE := namespace, EntityConfig.SOURCE_LOCATION := location];
    assert a[EntityConfig.SOURCE_LOCATION] == location;
    assert EntityConfig.ENDOR_PROJECT_UUID !in a;
    var d := EntityConfig.EntityDataOf(Some(a));
    assert d.projectUUID == "" && d.namespace == namespace;
    assert d.repoUrl == location;
    assert "" + "/summary" == "/summary";
  }

  /** With the repository URL passed, the client sends a request iff the
      entity has a project UUID, a source location or a GitHub slug, and the
      request carries the identifier the entity resolves to. */
  lemma ResolvedIdentifiersSent(annotations: EntityConfig.Annotations, baseUrl: string)
    ensures var d := EntityConfig.EntityDataOf(annotations);
      var args := EndorPage.SummaryArguments(d);
      var r := PrepareSummaryRequest(baseUrl, args.0, args.1);
      && (r.Ok? <==>
            EntityConfig.Annotation(annotations, EntityConfig.ENDOR_PROJECT_UUID) != ""
            || EntityConfig.Annotation(annotations, EntityConfig.SOURCE_LOCATION) != ""
            || EntityConfig.Annotation(annotations, EntityConfig.SOURCE_LOCATION_GITHUB) != "")
      && (r.Ok? ==> r.value.projectUUID == d.projectUUID && r.value.repoUrl == d.repoUrl)
  {
    EntityConfig.IdentifierPresent(annotations);
  }
}
