# Endor Labs Backstage plugin — a Dafny model

This project models the logic of the Endor Labs plugin for Backstage. The
plugin has two halves, and both are modelled:

- **The backend** (`endor-backend`). It exchanges an API key for a bearer
  token, which it caches. It looks up a project by repository URL and
  assembles a project summary from four requests to the Endor Labs API,
  flattening the grouped finding counts. The `/summary` route turns every
  outcome into an HTTP status and a typed error.
- **The frontend** (`endor-frontend`, and the older `plugins/endor`). It
  resolves the Endor project from an entity's annotations and calls the
  backend. It maps the backend's errors, classifies each finding count
  against two thresholds, and builds links and filters for the Endor Labs
  findings page.

## Modules

| module | models |
|---|---|
| `Results` | `Option`, `Result`, and an error message |
| `JsString` | the JavaScript string operations used: `includes`, `replace` with a string pattern (first occurrence only), `Array.join`, `Number.toString`, `toLowerCase` over ASCII, and `replace` with a global one-character pattern |
| `UriComponent` | `encodeURIComponent` over ASCII, following the unreserved set of section 2.3 of RFC 2396; also the decoder that inverts it |
| `FindingsUrl` | the path and query built by `buildEndorFindingsUrl`, and a parser that reads them back |
| `ProjectTypes` | the decoded shapes of the Endor Labs API responses and of `ProjectSummary` |
| `GroupCounts` | reference definitions of the two normalisers: sums over the groups |
| `Service` | `EndorService`: the two normalisers as loops, the summary assembly and the repository lookup |
| `Auth` | `AuthenticationService`: the single-slot token cache, as a class |
| `Wire` | `EndorErrorType` and the JSON bodies of the `/summary` route |
| `Router` | the `/summary` handler |
| `BackendClient` | `EndorBackendClient`: its precondition and its error mapping |
| `EntityConfig`, `LegacyConfig` | `useEndorEntityData` and `useEndorConfigData`, in the newer and the older plugin |
| `StatusAccordion`, `LegacyStatusAccordion` | the values the two `StatusAccordion` components compute |
| `EndorPage` | the metrics, base filters, links and chart-click filter of `EndorPage` |
| `EndToEnd` | properties that connect the frontend to the backend |

Upstream requests are modelled by their answers, not as I/O:

- A `Fetch<T>` is either a parsed body or a non-ok status text.
- The token exchange's answer is an `Exchange`.
- The current time is an integer number of milliseconds.
- The `/summary` route receives the service's two calls as functions of their arguments.

## Model

| member | source | states |
|---|---|---|
| `GroupCounts.LevelCounts` | endor-backend/src/service/endor.service.ts:176-192 | The level normaliser succeeds iff every group's parsed key has an element 0; otherwise it fails with the runtime's `TypeError` |
| `Service.TotalCountsByCategory` | endor-backend/src/service/endor.service.ts:156-174 | The map built in place by the nested loops equals the reference map. Each category listed in any key maps to the sum over groups of the group's count times the category's occurrences in that key |
| `Service.AddCategories` | endor-backend/src/service/endor.service.ts:164-169 | The innermost loop adds the group's count once per listed category string, creating an entry at 0 first, and so keeps the reference map in step |
| `Service.TotalCountsByFindingLevel` | endor-backend/src/service/endor.service.ts:176-192 | The loop returns the per-level sums of `LevelCounts`, or the `TypeError` at the first group whose key has no element 0 |
| `GroupCounts.CategoryFanOut` | endor-backend/src/service/endor.service.ts:163-169 | Every category in every item of a group's key receives at least that group's full count: counts are fanned out, not split |
| `GroupCounts.KeyCategoriesListed` | endor-backend/src/service/endor.service.ts:163-164 | A string is a category of a key iff some item's `value` lists it, and then it occurs at least once |
| `GroupCounts.ShareBounded` | endor-backend/src/service/endor.service.ts:160-171 | Each group's contribution to a name is part of that name's total |
| `GroupCounts.GroupsPermuted` | endor-backend/src/service/endor.service.ts:160-171 | A name's total, and whether it is named at all, do not depend on the order of the groups |
| `GroupCounts.CountsPermuted` | endor-backend/src/service/endor.service.ts:160-171 | Both normalisers give the same map for any reordering of the groups |
| `GroupCounts.PresentIffNamed` | endor-backend/src/service/endor.service.ts:158-173 | A name is a key of the result iff some group names it, even a group with count 0; zero groups give the empty map |
| `GroupCounts.TotalOfUnnamed` | endor-backend/src/service/endor.service.ts:158-173 | A name that no group names has total 0 |
| `GroupCounts.CountsGrow` | endor-backend/src/service/endor.service.ts:165-168 | Processing further groups keeps every entry and never decreases it |
| `GroupCounts.CategoryValueAppended` | endor-backend/src/service/endor.service.ts:164-168 | One more category string adds the group's count to that category's entry, creating it at 0 first |
| `GroupCounts.LevelGroupAppended` | endor-backend/src/service/endor.service.ts:185-188 | One more group adds its count to its level's entry, creating it at 0 first |
| `GroupCounts.LevelUsesElementZero` | endor-backend/src/service/endor.service.ts:181-182 | Groups that agree on their counts and on element 0's `value` give the same level result, whatever element 0's `key` and the later key elements are |
| `GroupCounts.LevelTotalsAgree` | endor-backend/src/service/endor.service.ts:181-182 | Per level, the totals and the set of levels depend only on the `value` of element 0 of each key and on the counts |
| `GroupCounts.ExampleFanOut` | endor-backend/src/service/endor.service.ts:163-169 | A group of count 5 keyed by categories A and B gives A 5 and B 5 |
| `GroupCounts.ExampleRepeatedCategory` | endor-backend/src/service/endor.service.ts:163-169 | A category listed twice in one key receives the count twice |
| `GroupCounts.ExampleZeroCount` | endor-backend/src/service/endor.service.ts:165-168 | A group with count 0 still creates its entry, at 0 |
| `GroupCounts.ExampleLevels` | endor-backend/src/service/endor.service.ts:182-188 | Groups at the same level are summed, and a two-valued level is filed under the comma-joined name |
| `Service.RepoLookup` | endor-backend/src/service/endor.service.ts:14-46 | The lookup succeeds iff a token was obtained, the response is ok and `list.objects` is present and non-empty; the result is then the first object. Each failure carries its own message: the token error, "Error fetching project by repo: " with the status text, or "No project found for repository: " with the URL |
| `Service.LevelTotals` | endor-backend/src/service/endor.service.ts:73-117 | An ok response with a `group_response` gives the level normaliser's outcome on its groups. A non-ok response fails with "Error fetching total findings: " and the status text, and a body without `group_response` fails with the runtime's `TypeError` reading `groups` |
| `Service.CategoryTotals` | endor-backend/src/service/endor.service.ts:134-154 | Succeeds iff the response is ok and has a `group_response`; its value is then the category normaliser's map |
| `Service.ProjectOf` | endor-backend/src/service/endor.service.ts:119-132 | The project request succeeds iff its response is ok, with the parsed project; a non-ok response fails with "Error fetching project: " and the status text |
| `Service.Summarize` | endor-backend/src/service/endor.service.ts:48-71 | All or nothing: a summary exists iff the token, the project and all three count requests succeed. It then echoes the UUID, takes name and namespace from the project, and takes the three maps from the normalisers |
| `Service.EndorService.constructor` | endor-backend/src/service/endor.service.ts:9-12 | The service keeps its configuration and owns a fresh, empty token cache |
| `Service.EndorService.GetProjectByRepoUrl` | endor-backend/src/service/endor.service.ts:14-46 | One authentication step on the cache, then the result of `RepoLookup` for the token it gave |
| `Service.EndorService.GetProjectSummary` | endor-backend/src/service/endor.service.ts:48-71 | One authentication step on the cache, then the result of `Summarize` for the token it gave |
| `Service.EndorService.GetProject` | endor-backend/src/service/endor.service.ts:119-132 | Returns `ProjectOf` of the response |
| `Service.EndorService.GetLevelCounts` | endor-backend/src/service/endor.service.ts:73-117 | Returns `LevelTotals` of the response, by way of the level loop |
| `Service.EndorService.GetFindingsCountByCategory` | endor-backend/src/service/endor.service.ts:134-154 | Returns `CategoryTotals` of the response, by way of the category loops |
| `Service.FirstFailureWins` | endor-backend/src/service/endor.service.ts:48-71 | The first failing step decides the error, with the message each step raises, whatever the later requests would answer |
| `Service.TotalAndReachableIndistinguishable` | endor-backend/src/service/endor.service.ts:88-113 | A failing total request and a failing reachable request give the same error message |
| `Service.SummaryCounts` | endor-backend/src/service/endor.service.ts:52-64 | From well-formed responses the summary is exactly the record of the project's fields and the three normalised maps |
| `Service.MissingGroupResponseFails` | endor-backend/src/service/endor.service.ts:157 | A body without `group_response` fails the summary with "Cannot read properties of undefined (reading 'groups')" |
| `Auth.AuthStep` | endor-backend/src/service/auth.service.ts:17-49 | A call asks the exchange endpoint iff the slot is not live; it changes the slot only when it succeeds |
| `Auth.AuthenticationService.constructor` | endor-backend/src/service/auth.service.ts:11-15 | The cache starts empty, with no exchange made |
| `Auth.AuthenticationService.Auth` | endor-backend/src/service/auth.service.ts:17-49 | The method returns and stores what `AuthStep` prescribes, and counts exactly one exchange when it makes one |
| `Auth.CacheHit` | endor-backend/src/service/auth.service.ts:19-24 | A cached token before its expiry is returned with no exchange and no change |
| `Auth.StaleAtExpiry` | endor-backend/src/service/auth.service.ts:21 | The test is strict: at the expiry instant an exchange is made |
| `Auth.InvalidDateNeverServed` | endor-backend/src/service/auth.service.ts:21 | A token whose expiry did not parse is never served from the cache |
| `Auth.RefusalKeepsSlot` | endor-backend/src/service/auth.service.ts:38-40 | A refused exchange fails with "Authentication error: " and the status text, and leaves the slot as it was, empty or stale |
| `Auth.GrantReturnedUnchecked` | endor-backend/src/service/auth.service.ts:43-48 | A granted exchange overwrites the slot, and its token is returned even when its expiry is already past |
| `Auth.ExpiredEntryNeverServed` | endor-backend/src/service/auth.service.ts:20-24 | Once the time has reached a cached entry's expiry, every later call that still finds that entry makes an exchange |
| `Auth.RefusalsRetry` | endor-backend/src/service/auth.service.ts:26-40 | With nothing live and every exchange refused, every call fails and asks the endpoint again, and the slot never changes |
| `Wire.ErrorTypeName` | endor-backend/src/service/router.ts:13-18 | Every error type is sent as a non-empty string |
| `Wire.ErrorTypeNamesDistinct` | endor-backend/src/service/router.ts:13-18 | Distinct error types are sent as distinct strings |
| `Router.SummaryResponse` | endor-backend/src/service/router.ts:68-89 | A summary is sent with 200 unchanged. A not-found message gives 404 PROJECT_NOT_FOUND "Project not found"; any other error gives 500 API_ERROR "API error: " plus the message |
| `Router.HandleSummary` | endor-backend/src/service/router.ts:39-91 | The whole decision table. No identifiers: 400 MISSING_ANNOTATION and no service call. A UUID: no lookup. A failed lookup: 404 REPO_NOT_FOUND. A successful lookup: the summary is asked for the found project's UUID |
| `Router.NotFoundAnywhere` | endor-backend/src/service/router.ts:72-80 | Any message containing "Not Found" anywhere is reported as a missing project |
| `Router.UpperCaseIsApiError` | endor-backend/src/service/router.ts:72-75 | The test is case-sensitive: "NOT FOUND" gives 500 |
| `Router.ResponseShapes` | endor-backend/src/service/router.ts:68-89 | Status 200 iff the body is a summary; the status is 200, 404 or 500; every error body has a non-empty type and message |
| `BackendClient.Or` | endor-frontend/src/api/EndorBackendClient.ts:16-18 | JavaScript's logical or on strings keeps the left operand when it is non-empty and gives the right one otherwise, so it is "" only when both are |
| `BackendClient.PrepareSummaryRequest` | endor-frontend/src/api/EndorBackendClient.ts:25-41 | The client refuses iff both identifiers are empty, with MISSING_ANNOTATION; otherwise it posts both identifiers to the base URL plus "/summary" |
| `BackendClient.HandleResponse` | endor-frontend/src/api/EndorBackendClient.ts:11-23 | An ok body is returned unchanged. Otherwise the message falls back from the body's message to the status text to "Unknown error", and the type falls back from the body's type to API_ERROR |
| `BackendClient.GetProjectSummary` | endor-frontend/src/api/EndorBackendClient.ts:25-44 | The precondition's error without identifiers, otherwise the handled response |
| `BackendClient.MissingAnnotationsBeforeRequest` | endor-frontend/src/api/EndorBackendClient.ts:26-30 | Without identifiers the outcome does not depend on any response |
| `EntityConfig.Annotation` | endor-frontend/src/components/EndorComponent/config.ts:11-12 | `??` on an annotation: its value when present, even "", and "" when it or the map is missing |
| `EntityConfig.EntityDataOf` | endor-frontend/src/components/EndorComponent/config.ts:10-34 | The namespace and project UUID are the annotation values, or "" |
| `EntityConfig.BaseUrl` | endor-frontend/src/components/EndorComponent/config.ts:36-41 | `endor.appUrl` when it is set, even to ""; "https://app.endorlabs.com" only when it is unset. The older plugin's `useEndorConfigData` (plugins/endor/src/components/EndorComponent/config.ts:17-22) is the same expression and is modelled by this function too |
| `EntityConfig.ProjectUuidExcludesRepoUrl` | endor-frontend/src/components/EndorComponent/config.ts:13-15 | A non-empty project UUID forces an empty repository URL |
| `EntityConfig.RepoUrlPrecedence` | endor-frontend/src/components/EndorComponent/config.ts:15-27 | Without a UUID: a non-empty source location, copied verbatim, wins; then a slug gives its GitHub clone URL; else "" |
| `EntityConfig.IdentifierPresent` | endor-frontend/src/components/EndorComponent/config.ts:10-34 | The entity has an identifier iff it has a project UUID, a source location or a slug |
| `EntityConfig.GitHubSlugRecoverable` | endor-frontend/src/components/EndorComponent/config.ts:24 | The slug can be read back from the clone URL |
| `EntityConfig.GitHubCloneUrlInjective` | endor-frontend/src/components/EndorComponent/config.ts:24 | Distinct slugs give distinct clone URLs |
| `LegacyConfig.LegacyEntityDataOf` | plugins/endor/src/components/EndorComponent/config.ts:7-15 | The namespace and UUID are the annotation values when present, else "" |
| `LegacyConfig.AgreesWithNewerPlugin` | plugins/endor/src/components/EndorComponent/config.ts:7-15 | The newer plugin resolves namespace and UUID exactly as the older one |
| `UriComponent.EncodeWellFormed` | endor-frontend/src/helper/endor.ts:3-5 | The encoding consists of unreserved characters and `%HH` triples of upper-case hex digits |
| `UriComponent.WellFormedAlphabet` | endor-frontend/src/helper/endor.ts:3-5 | Such text holds only alphanumerics, `-_.!~*'()` and `%` |
| `UriComponent.EncodedHasNoDelimiters` | endor-frontend/src/helper/endor.ts:3-5 | An encoding contains no `/`, `?`, `#`, `&` or space, so the namespace stays one path segment and the filter one query value |
| `UriComponent.DecodeEncode` | endor-frontend/src/helper/endor.ts:5 | Decoding the encoding gives back the original text |
| `UriComponent.EncodeInjective` | endor-frontend/src/helper/endor.ts:3-5 | Distinct texts have distinct encodings |
| `UriComponent.EncodeUnreservedIdentity` | endor-frontend/src/helper/endor.ts:3-5 | Text made of unreserved characters is left as it is |
| `FindingsUrl.ParseFindingsPathRoundTrip` | endor-frontend/src/helper/endor.ts:1-8 | The namespace, the category (inserted unencoded, even if it holds `/`) and the filter can all be read back from the link |
| `StatusAccordion.ChooseStatus` | endor-frontend/src/components/EndorComponent/StatusAccordian.tsx:31-45 | Error iff the count exceeds the error threshold, tested first; Warning iff not that but it exceeds the warning threshold; OK otherwise |
| `StatusAccordion.FindingText` | endor-frontend/src/components/EndorComponent/StatusAccordian.tsx:29 | "Finding" iff the count is 1, "Findings" otherwise |
| `StatusAccordion.Slug` | endor-frontend/src/components/EndorComponent/StatusAccordian.tsx:62 | The id has the title's length; each character is the lower-cased title character, or "-" for a space |
| `StatusAccordion.Render` | endor-frontend/src/components/EndorComponent/StatusAccordian.tsx:28-72 | The component's values: its status, status line, id and details; the action is shown iff the count is positive |
| `StatusAccordion.StatusMonotone` | endor-frontend/src/components/EndorComponent/StatusAccordian.tsx:31-45 | More findings never give a milder status |
| `StatusAccordion.OkWithAction` | endor-frontend/src/components/EndorComponent/StatusAccordian.tsx:47-57 | The button does not follow the status: one finding with warning threshold 1 is OK and still shows "Show Me" |
| `StatusAccordion.SlugIdempotent` | endor-frontend/src/components/EndorComponent/StatusAccordian.tsx:62 | Slugging an id again changes nothing |
| `StatusAccordion.SlugExample` | endor-frontend/src/components/EndorComponent/StatusAccordian.tsx:62 | "License Risk" becomes "license-risk" |
| `StatusAccordion.DetailsSubstitutesFirst` | endor-frontend/src/components/EndorComponent/StatusAccordian.tsx:68 | Whenever the text before the first "{count}" holds no "{count}", that placeholder alone is replaced by the count's digits; the rest, further placeholders included, is kept |
| `StatusAccordion.DetailsDistinguishCounts` | endor-frontend/src/components/EndorComponent/StatusAccordian.tsx:68 | When the text before the first "{count}" holds no "{count}", different counts always give different details |
| `StatusAccordion.DetailsExample` | endor-frontend/src/components/EndorComponent/StatusAccordian.tsx:68 | "{count} new, {count} total" with 12 gives "12 new, {count} total" |
| `StatusAccordion.DetailsWithoutPlaceholder` | endor-frontend/src/components/EndorComponent/StatusAccordian.tsx:68 | Without a placeholder the explanation is shown as it is |
| `LegacyStatusAccordion.LegacyRender` | plugins/endor/src/components/EndorComponent/StatusAccordian.tsx:28-69 | The same three-way status and id, details and button rule; the status line always says "Findings" |
| `LegacyStatusAccordion.AgreesWithNewerComponent` | plugins/endor/src/components/EndorComponent/StatusAccordian.tsx:30-44 | The older and newer components agree on every modelled value except the status line, which differs exactly for a single finding that is not OK |
| `EndorPage.CategoryName` | endor-frontend/src/components/EndorComponent/EndorPage.tsx:77-89 | Every row counts a `FINDING_CATEGORY_` category |
| `EndorPage.CategoryNamesDistinct` | endor-frontend/src/components/EndorComponent/EndorPage.tsx:77-89 | The eight rows count eight different categories |
| `EndorPage.MetricValue` | endor-frontend/src/components/EndorComponent/EndorPage.tsx:77-89 | A row shows its category's count when the summary has it, else 0 |
| `EndorPage.BaseFiltersEndWithProject` | endor-frontend/src/components/EndorComponent/EndorPage.tsx:70-75 | All four base filters end with `spec.project_uuid==` and the UUID, after a text that does not depend on it |
| `EndorPage.DependencyAndPackageDiffer` | endor-frontend/src/components/EndorComponent/EndorPage.tsx:71-72 | The dependency and package filters differ only in `not contains` versus `contains` of `[FINDING_TAGS_SELF]` |
| `EndorPage.ClickFilterShape` | endor-frontend/src/components/EndorComponent/EndorPage.tsx:53-68 | A click filter is the dependency filter narrowed to the clicked level and to vulnerabilities. The reachable-function clause is added, and the filter ends with it, iff the data index is 1 |
| `EndorPage.LinkPages` | endor-frontend/src/components/EndorComponent/EndorPage.tsx:91-140 | CI/CD and SCPM link to "repository", secrets to "secrets", the other five rows to "dependency" |
| `EndorPage.LinkFiltersMatchMetrics` | endor-frontend/src/components/EndorComponent/EndorPage.tsx:95-137 | Each non-secrets link filter is its page's base filter narrowed to the row's own category; the secrets link uses the bare secrets filter |
| `EndorPage.LinkPath` | endor-frontend/src/components/EndorComponent/EndorPage.tsx:91-140 | Each row's link reads back as its namespace, its page and its filter |
| `EndorPage.SummaryArgumentsAsWritten` | endor-frontend/src/components/EndorComponent/EndorPage.tsx:37-40 | As written, the client sends a request iff the entity has a project UUID or a namespace, and the request carries the namespace as its repository URL |
| `EndorPage.SummaryArguments` | endor-frontend/src/components/EndorComponent/EndorPage.tsx:37-40 | Corrected: the client sends a request iff the entity has a project UUID or a resolved repository URL, and the request carries that URL |
| `EndToEnd.ClientSeesRouteErrors` | endor-frontend/src/api/EndorBackendClient.ts:14-19 | Every error the route sends for a summary reaches the page with the route's own message and error type |
| `EndToEnd.ClientSeesSummary` | endor-frontend/src/api/EndorBackendClient.ts:14-22 | A summary the route sends reaches the page unchanged |
| `EndToEnd.ClientSeesRepoNotFound` | endor-backend/src/service/router.ts:59-63 | An unresolved repository reaches the page as REPO_NOT_FOUND "Repository not scanned" |
| `EndToEnd.ClientCheckMatchesRouteCheck` | endor-frontend/src/api/EndorBackendClient.ts:26-30 | The client refuses exactly the requests the route would answer with 400, with the route's message and type |
| `EndToEnd.MetricIsCategoryTotal` | endor-frontend/src/components/EndorComponent/EndorPage.tsx:77-89 | Each row's metric is the backend's category total: count times occurrences summed over the groups, 0 if none lists it |
| `EndToEnd.SourceLocationLostAsWritten` | endor-frontend/src/components/EndorComponent/EndorPage.tsx:37-40 | As written, an entity annotated only with a source location is refused by the client, although it resolves to a repository URL |
| `EndToEnd.NamespaceSentAsRepoUrl` | endor-frontend/src/components/EndorComponent/EndorPage.tsx:37-40 | As written, an entity with a namespace and a source location sends its namespace as the repository URL |
| `EndToEnd.ResolvedIdentifiersSent` | endor-frontend/src/components/EndorComponent/EndorPage.tsx:37-40 | Corrected: a request is sent iff the entity has a UUID, a source location or a slug, and it carries the identifiers the entity resolves to |

## Left out

- HTTP itself is left out: `fetch`, `response.json()`, headers, the URLs and query strings of the upstream requests, and the Express wiring. Each upstream answer is a parameter. So are the `/health` route and the discovery of the backend's base URL.
- `JSON.parse` of the group keys is left out; keys are taken already decoded. Malformed keys, a missing `groups` inside `group_response` and a missing `aggregation_count` are not modelled.
- `Service.TotalCountsByCategory`, `Service.TotalCountsByFindingLevel`: require a `group_response`, because the source reads it unguarded. The summary-level functions return the runtime's `TypeError` for a missing one.
- A level named by a non-string, and category names that collide with properties of `Object.prototype`, are not modelled. Counts are natural numbers.
- `Date.now()` and `new Date(…)` parsing are left out. The time is a parameter, and an unparsable expiry is the invalid date, which never compares as live.
- Concurrent calls to `auth()` are not modelled. Two overlapping misses can each make an exchange; the model is sequential.
- `Service.EndorService.GetLevelCounts`: one method models both `getTotalVulnerabilities` and `getReachableVulnerabilities`. They differ only in the filter they send, which is not modelled.
- `UriComponent.Encode`, `UriComponent.Decode`, `FindingsUrl.FindingsPath`, `EndorPage.LinkPath`: ASCII input only. `encodeURIComponent` on other text writes UTF-8 bytes or throws on a lone surrogate; neither is modelled.
- `StatusAccordion.Slug`, `JsString.LowerCase`: ASCII only; Unicode case mapping is not modelled.
- The resolution of the findings path against the base URL by `new URL(…)` is a library call and is not modelled. Only the path and query string are.
- React rendering, hooks, state updates in `getEndorData`, `window.open`, the charts and all logging are left out.
- Error bodies: only string `message` and `errorType` members are modelled, and a missing or falsy one is "". A truthy non-string member, such as `message: 42`, would pass the client's `||` test and become the thrown error's message or type; that case is not modelled. Non-JSON bodies are not modelled either.
- Request bodies of the `/summary` route: only string `projectUUID` and `repoUrl` members are modelled, and a missing or falsy one is "". A truthy non-string member, such as `projectUUID: 42`, would pass the route's `!projectUUID && !repoUrl` test and be forwarded to the service; that case is not modelled.
- The backend's registration, the plugins' wiring, the development harness and the type-only files are not part of this model. Their types appear as datatypes.
- The level normaliser throws on a group whose parsed key is empty; it does not skip it. A category whose groups all have count 0 is present with 0.

## Findings

| source | as written | input that shows it | evidently intended | confidence | as-written member | corrected member |
|---|---|---|---|---|---|---|
| endor-frontend/src/components/EndorComponent/EndorPage.tsx:37-40 | `getEndorData` passes `namespace` as the client's second argument, `repoUrl` | an entity whose annotations are only `backstage.io/source-location: url:https://github.com/acme/app` | the resolved `repoUrl` from `useEndorEntityData`, so that an entity identified by its repository reaches the backend's lookup | not executed | `EndToEnd.SourceLocationLostAsWritten` | `EndToEnd.ResolvedIdentifiersSent` |
