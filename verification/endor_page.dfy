/** The values `EndorPage` (endor-frontend/src/components/EndorComponent/EndorPage.tsx)
    derives from the project summary and the entity: the metric shown in
    each row, the filters of the findings page, the link of each row and the
    filter of a click on the vulnerability chart. Rendering, hooks and
    opening windows are not modelled. */
module EndorPage {
  import opened Results
  import opened JsString
  import opened ProjectTypes
  import opened UriComponent
  import opened FindingsUrl
  import EntityConfig
  import BackendClient

  /** The rows of the page, one per finding category. */
  datatype Metric = Cicd | Malware | License | Operational | Scpm | Secrets | Security | Supply

  /** The finding category each row counts. */
  function CategoryName(m: Metric): (c: string)
    ensures |c| > 17 && c[..17] == "FINDING_CATEGORY_"
  {
    match m
    case Cicd => "FINDING_CATEGORY_CICD"
    case Malware => "FINDING_CATEGORY_MALWARE"
    case License => "FINDING_CATEGORY_LICENSE_RISK"
    case Operational => "FINDING_CATEGORY_OPERATIONAL"
    case Scpm => "FINDING_CATEGORY_SCPM"
    case Secrets => "FINDING_CATEGORY_SECRETS"
    case Security => "FINDING_CATEGORY_SECURITY"
    case Supply => "FINDING_CATEGORY_SUPPLY_CHAIN"
  }

  /** The eight rows count eight different categories. */
  lemma CategoryNamesDistinct(m: Metric, m': Metric)
    requires CategoryName(m) == CategoryName(m')
    ensures m == m'
  {
  }

  /** `metrics`: the category's count in the summary, or 0 while there is
      no summary or when the category is absent from it. */
  function MetricValue(categories: Option<CountMap>, m: Metric): (n: nat)
    ensures categories.Some? && CategoryName(m) in categories.value ==> n == categories.value[CategoryName(m)]
    ensures categories.None? || CategoryName(m) !in categories.value ==> n == 0
  {
    if categories.Some? && CategoryName(m) in categories.value then categories.value[CategoryName(m)] else 0
  }

  /** The four kinds of finding the page filters on. */
  datatype FilterKind = Dependency | Package | Repository | SecretsKind

  // Fragments of the filters, in the order they appear.
  const PACKAGE_VERSION_TAGS := "meta.parent_kind==PackageVersion and " + "spec.ecosystem!=ECOSYSTEM_GITHUB_ACTION" + " and spec.finding_tags "
  const SELF_TAG := " [FINDING_TAGS_SELF] and "
  const REPOSITORY_KINDS := "meta.parent_kind in [Repository," + "RepositoryVersion] and "
    + "spec.finding_categories not contains " + "[FINDING_CATEGORY_SECRETS] and "
  const SECRETS_CATEGORY := "spec.finding_categories contains " + "[FINDING_CATEGORY_SECRETS] and "
  const PROJECT_TEST := "spec.project_uuid=="
  const LEVEL_TEST := " and spec.level in ["
  const VULNERABILITY_CATEGORY := "] and spec.finding_categories contains " + "[FINDING_CATEGORY_VULNERABILITY]"
  const CATEGORY_TEST := " and spec.finding_categories contains ["
  const REACHABLE_CLAUSE := " and spec.finding_tags contains " + "[FINDING_TAGS_REACHABLE_FUNCTION]"

  /** `baseFilters`: the text before the project UUID. */
  function FilterStem(kind: FilterKind): string {
    match kind
    case Dependency => PACKAGE_VERSION_TAGS + "not contains" + SELF_TAG
    case Package => PACKAGE_VERSION_TAGS + "contains" + SELF_TAG
    case Repository => REPOSITORY_KINDS
    case SecretsKind => SECRETS_CATEGORY
  }

  /** `baseFilters`. */
  function BaseFilter(kind: FilterKind, projectUUID: string): string {
    FilterStem(kind) + PROJECT_TEST + projectUUID
  }

  /** The filter of a click on the bar of level `seriesId` in series
      `dataIndex` (0 for all findings, 1 for reachable ones). */
  function ClickFilter(projectUUID: string, seriesId: string, dataIndex: int): (f: string)
  {
    var filter := BaseFilter(Dependency, projectUUID) + LEVEL_TEST + seriesId + VULNERABILITY_CATEGORY;
    if dataIndex == 1 then filter + REACHABLE_CLAUSE else filter
  }

  /** The findings page each row links to. */
  function LinkPage(m: Metric): string {
    match m
    case Cicd => "repository"
    case Malware => "dependency"
    case License => "dependency"
    case Operational => "dependency"
    case Scpm => "repository"
    case Secrets => "secrets"
    case Security => "dependency"
    case Supply => "dependency"
  }

  /** The filter of each row's link. */
  function LinkFilter(m: Metric, projectUUID: string): string {
    match m
    case Cicd => BaseFilter(Repository, projectUUID) + CATEGORY_TEST + "FINDING_CATEGORY_CICD" + "]"
    case Malware => BaseFilter(Dependency, projectUUID) + CATEGORY_TEST + "FINDING_CATEGORY_MALWARE" + "]"
    case License => BaseFilter(Dependency, projectUUID) + CATEGORY_TEST + "FINDING_CATEGORY_LICENSE_RISK" + "]"
    case Operational => BaseFilter(Dependency, projectUUID) + CATEGORY_TEST + "FINDING_CATEGORY_OPERATIONAL" + "]"
    case Scpm => BaseFilter(Repository, projectUUID) + CATEGORY_TEST + "FINDING_CATEGORY_SCPM" + "]"
    case Secrets => BaseFilter(SecretsKind, projectUUID)
    case Security => BaseFilter(Dependency, projectUUID) + CATEGORY_TEST + "FINDING_CATEGORY_SECURITY" + "]"
    case Supply => BaseFilter(Dependency, projectUUID) + CATEGORY_TEST + "FINDING_CATEGORY_SUPPLY_CHAIN" + "]"
  }

  /** The path and query of each row's link, as `buildEndorFindingsUrl`
      builds them. */
  function LinkPath(m: Metric, namespace: string, projectUUID: string): (p: string)
    requires IsAscii(namespace) && IsAscii(projectUUID)
    ensures ParseFindingsPath(p) == Some(Target(namespace, LinkPage(m), LinkFilter(m, projectUUID)))
  {
    LinkFilterAscii(m, projectUUID);
    ParseFindingsPathRoundTrip(namespace, LinkPage(m), LinkFilter(m, projectUUID));
    FindingsPath(namespace, LinkPage(m), LinkFilter(m, projectUUID))
  }

  lemma PackageVersionTagsAscii()
    ensures IsAscii(PACKAGE_VERSION_TAGS)
  {
    var a, b, c := "meta.parent_kind==PackageVersion and ", "spec.ecosystem!=ECOSYSTEM_GITHUB_ACTION", " and spec.finding_tags ";
    AsciiConcat(a, b);
    AsciiConcat(a + b, c);
  }

  lemma RepositoryKindsAscii()
    ensures IsAscii(REPOSITORY_KINDS)
  {
    var a, b, c, d := "meta.parent_kind in [Repository,", "RepositoryVersion] and ",
      "spec.finding_categories not contains ", "[FINDING_CATEGORY_SECRETS] and ";
    AsciiConcat(a, b);
    AsciiConcat(a + b, c);
    AsciiConcat(a + b + c, d);
  }

  lemma SecretsCategoryAscii()
    ensures IsAscii(SECRETS_CATEGORY)
  {
    AsciiConcat("spec.finding_categories contains ", "[FINDING_CATEGORY_SECRETS] and ");
  }

  /** The fixed text of every base filter is ASCII. */
  lemma FilterStemAscii(kind: FilterKind)
    ensures IsAscii(FilterStem(kind))
  {
    match kind {
      case Dependency =>
        PackageVersionTagsAscii();
        AsciiConcat(PACKAGE_VERSION_TAGS, "not contains");
        AsciiConcat(PACKAGE_VERSION_TAGS + "not contains", SELF_TAG);
      case Package =>
        PackageVersionTagsAscii();
        AsciiConcat(PACKAGE_VERSION_TAGS, "contains");
        AsciiConcat(PACKAGE_VERSION_TAGS + "contains", SELF_TAG);
      case Repository => RepositoryKindsAscii();
      case SecretsKind => SecretsCategoryAscii();
    }
  }

  lemma BaseFilterAscii(kind: FilterKind, projectUUID: string)
    requires IsAscii(projectUUID)
    ensures IsAscii(BaseFilter(kind, projectUUID))
  {
    FilterStemAscii(kind);
    AsciiConcat(FilterStem(kind), PROJECT_TEST);
    AsciiConcat(FilterStem(kind) + PROJECT_TEST, projectUUID);
  }

  lemma CategoryClauseAscii(m: Metric)
    ensures IsAscii(CATEGORY_TEST) && IsAscii(CategoryName(m)) && IsAscii("]")
  {
    match m {
      case Cicd =>
      case Malware =>
      case License =>
      case Operational =>
      case Scpm =>
      case Secrets =>
      case Security =>
      case Supply =>
    }
  }

  /** The link filters are ASCII whenever the project UUID is. */
  lemma LinkFilterAscii(m: Metric, projectUUID: string)
    requires IsAscii(projectUUID)
    ensures IsAscii(LinkFilter(m, projectUUID))
  {
    var base := BaseFilter(PageFilterKind(m), projectUUID);
    BaseFilterAscii(PageFilterKind(m), projectUUID);
    if m != Secrets {
      var name := CategoryName(m);
      CategoryClauseAscii(m);
      AsciiConcat(base, CATEGORY_TEST);
      AsciiConcat(base + CATEGORY_TEST, name);
      AsciiConcat(base + CATEGORY_TEST + name, "]");
      LinkFiltersMatchMetrics(m, projectUUID);
    }
  }

  // -----------------------------------------------------------------------
  // Properties

  function Suffix(s: string, n: nat): string
    requires n <= |s|
  {
    s[|s| - n..]
  }

  /** Every base filter ends with `spec.project_uuid==` and the project
      UUID, after a text that does not depend on it. */
  lemma BaseFiltersEndWithProject(kind: FilterKind, projectUUID: string)
    ensures var f := BaseFilter(kind, projectUUID);
      var n := |PROJECT_TEST| + |projectUUID|;
      && |f| >= n && Suffix(f, n) == "spec.project_uuid==" + projectUUID
      && f[..|f| - n] == FilterStem(kind)
  {
    var f := BaseFilter(kind, projectUUID);
    assert f == FilterStem(kind) + (PROJECT_TEST + projectUUID);
  }

  /** The dependency and package filters differ only in `not contains`
      versus `contains` of `[FINDING_TAGS_SELF]`. */
  lemma DependencyAndPackageDiffer(projectUUID: string)
    ensures var tail := SELF_TAG + PROJECT_TEST + projectUUID;
      && BaseFilter(Dependency, projectUUID) == PACKAGE_VERSION_TAGS + "not contains" + tail
      && BaseFilter(Package, projectUUID) == PACKAGE_VERSION_TAGS + "contains" + tail
  {
    var tail := SELF_TAG + PROJECT_TEST + projectUUID;
    assert PACKAGE_VERSION_TAGS + "not contains" + SELF_TAG + PROJECT_TEST + projectUUID
        == PACKAGE_VERSION_TAGS + "not contains" + tail;
    assert PACKAGE_VERSION_TAGS + "contains" + SELF_TAG + PROJECT_TEST + projectUUID
        == PACKAGE_VERSION_TAGS + "contains" + tail;
  }

  /** A chart click always narrows the dependency filter to the clicked
      level and to vulnerabilities, and adds the reachable-function tag iff
      the reachable series (index 1) was clicked. */
  lemma ClickFilterShape(projectUUID: string, seriesId: string, dataIndex: int)
    ensures var f := ClickFilter(projectUUID, seriesId, dataIndex);
      var head := BaseFilter(Dependency, projectUUID) + LEVEL_TEST + seriesId + VULNERABILITY_CATEGORY;
      && (dataIndex == 1 ==> f == head + REACHABLE_CLAUSE)
      && (dataIndex != 1 ==> f == head)
      && (|f| >= |REACHABLE_CLAUSE| && Suffix(f, |REACHABLE_CLAUSE|) == REACHABLE_CLAUSE <==> dataIndex == 1)
  {
    var f := ClickFilter(projectUUID, seriesId, dataIndex);
    var n := |REACHABLE_CLAUSE|;
    if dataIndex == 1 {
      assert Suffix(f, n) == REACHABLE_CLAUSE;
    } else if |f| >= n {
      // The filter then ends in "VULNERABILITY]", the clause in "FUNCTION]".
      var head := BaseFilter(Dependency, projectUUID) + LEVEL_TEST + seriesId;
      assert f == head + VULNERABILITY_CATEGORY;
      var m := |VULNERABILITY_CATEGORY|;
      assert VULNERABILITY_CATEGORY[m - 2] == 'Y';
      assert f[|f| - 2] == 'Y';
      assert Suffix(f, n)[n - 2] == f[|f| - 2];
      assert REACHABLE_CLAUSE[n - 2] == 'N';
    }
  }

  /** The rows for CI/CD and SCPM link to the repository page, the secrets
      row to the secrets page, and the other five to the dependency page. */
  lemma LinkPages(m: Metric)
    ensures LinkPage(m) == "repository" <==> m == Cicd || m == Scpm
    ensures LinkPage(m) == "secrets" <==> m == Secrets
    ensures LinkPage(m) == "dependency" <==> m !in {Cicd, Scpm, Secrets}
  {
  }

  /** The base filter of a row's page. */
  function PageFilterKind(m: Metric): FilterKind {
    if m == Cicd || m == Scpm then Repository
    else if m == Secrets then SecretsKind
    else Dependency
  }

  /** Each link filters on the category its row counts: every link but the
      secrets one is its page's base filter narrowed to that category, and
      the secrets link is the bare secrets filter. */
  lemma LinkFiltersMatchMetrics(m: Metric, projectUUID: string)
    ensures m != Secrets ==>
      LinkFilter(m, projectUUID)
        == BaseFilter(PageFilterKind(m), projectUUID) + CATEGORY_TEST + CategoryName(m) + "]"
    ensures m == Secrets ==> LinkFilter(m, projectUUID) == BaseFilter(SecretsKind, projectUUID)
  {
  }

  // -----------------------------------------------------------------------
  // The arguments of the summary request

  /** The arguments `getEndorData` passes to the client's
      `getProjectSummary(projectUUID, repoUrl)`, as written: the namespace
      goes where the repository URL is expected. */
  function SummaryArgumentsAsWritten(entity: EntityConfig.EntityData): (args: (string, string))
    ensures forall baseUrl :: (BackendClient.PrepareSummaryRequest(baseUrl, args.0, args.1).Ok?
                               <==> entity.projectUUID != "" || entity.namespace != "")
    ensures forall baseUrl :: BackendClient.PrepareSummaryRequest(baseUrl, args.0, args.1).Ok? ==>
      BackendClient.PrepareSummaryRequest(baseUrl, args.0, args.1).value
        == BackendClient.SummaryPost(baseUrl + "/summary", entity.projectUUID, entity.namespace)
  {
    (entity.projectUUID, entity.namespace)
  }

  /** The arguments as the client's signature intends them: the project UUID
      and the repository URL resolved from the annotations. */
  function SummaryArguments(entity: EntityConfig.EntityData): (args: (string, string))
    ensures forall baseUrl :: (BackendClient.PrepareSummaryRequest(baseUrl, args.0, args.1).Ok?
                               <==> entity.projectUUID != "" || entity.repoUrl != "")
    ensures forall baseUrl :: BackendClient.PrepareSummaryRequest(baseUrl, args.0, args.1).Ok? ==>
      BackendClient.PrepareSummaryRequest(baseUrl, args.0, args.1).value
        == BackendClient.SummaryPost(baseUrl + "/summary", entity.projectUUID, entity.repoUrl)
  {
    (entity.projectUUID, entity.repoUrl)
  }
}
