/** `useEndorEntityData` and `useEndorConfigData`
    (endor-frontend/src/components/EndorComponent/config.ts): which Endor
    project a catalog entity points at, read from its annotations, and the
    Endor Labs web application's base URL. */
module EntityConfig {
  import opened Results

  const ENDOR_NAMESPACE := "endorlabs.com/namespace"
  const ENDOR_PROJECT_UUID := "endorlabs.com/project-uuid"
  const SOURCE_LOCATION := "backstage.io/source-location"
  const SOURCE_LOCATION_GITHUB := "github.com/project-slug"
  const DEFAULT_APP_URL := "https://app.endorlabs.com"

  /** An entity's `metadata.annotations`, which may be missing altogether. */
  type Annotations = Option<map<string, string>>

  datatype EntityData = EntityData(namespace: string, projectUUID: string, repoUrl: string)

  /** `annotations?.[name] ?? ''`: the value when present, even "", else "". */
  function Annotation(annotations: Annotations, name: string): (v: string)
    ensures annotations.Some? && name in annotations.value ==> v == annotations.value[name]
    ensures annotations.None? || name !in annotations.value ==> v == ""
  {
    if annotations.Some? && name in annotations.value then annotations.value[name] else ""
  }

  /** The clone URL of a GitHub repository given its `owner/name` slug. */
  function GitHubCloneUrl(slug: string): string {
    "https://github.com/" + slug + ".git"
  }

  /** `useEndorEntityData`: namespace and project UUID as annotated; a
      repository URL only when there is no project UUID, from the source
      location as it is, or else from the GitHub slug. */
  function EntityDataOf(annotations: Annotations): (d: EntityData)
    ensures d.namespace == Annotation(annotations, ENDOR_NAMESPACE)
    ensures d.projectUUID == Annotation(annotations, ENDOR_PROJECT_UUID)
  {
    var namespace := Annotation(annotations, ENDOR_NAMESPACE);
    var projectUUID := Annotation(annotations, ENDOR_PROJECT_UUID);
    var repoUrl :=
      if projectUUID != "" then ""
      else if Annotation(annotations, SOURCE_LOCATION) != "" then Annotation(annotations, SOURCE_LOCATION)
      else if Annotation(annotations, SOURCE_LOCATION_GITHUB) != "" then GitHubCloneUrl(Annotation(annotations, SOURCE_LOCATION_GITHUB))
      else "";
    EntityData(namespace, projectUUID, repoUrl)
  }

  /** `useEndorConfigData`: `endor.appUrl` when it is set, even to "", and
      the public application otherwise. */
  function BaseUrl(appUrl: Option<string>): (url: string)
    ensures appUrl.Some? ==> url == appUrl.value
    ensures appUrl.None? ==> url == DEFAULT_APP_URL
  {
    if appUrl.Some? then appUrl.value else DEFAULT_APP_URL
  }

  /** A project UUID wins: the repository URL is then empty, whatever else
      is annotated. */
  lemma ProjectUuidExcludesRepoUrl(annotations: Annotations)
    ensures EntityDataOf(annotations).projectUUID != "" ==> EntityDataOf(annotations).repoUrl == ""
  {
  }

  /** The repository URL is chosen by precedence: a non-empty source
      location, copied verbatim (its `url:` prefix is not stripped), then a
      non-empty GitHub slug, then nothing. */
  lemma RepoUrlPrecedence(annotations: Annotations)
    requires Annotation(annotations, ENDOR_PROJECT_UUID) == ""
    ensures var d := EntityDataOf(annotations);
      var location := Annotation(annotations, SOURCE_LOCATION);
      var slug := Annotation(annotations, SOURCE_LOCATION_GITHUB);
      && (location != "" ==> d.repoUrl == location)
      && (location == "" && slug != "" ==> d.repoUrl == GitHubCloneUrl(slug))
      && (location == "" && slug == "" ==> d.repoUrl == "")
  {
  }

  /** A repository URL is set exactly when there is no project UUID and a
      source location or slug is annotated; so the entity carries at least
      one identifier iff it has a project UUID, a source location or a slug. */
  lemma IdentifierPresent(annotations: Annotations)
    ensures var d := EntityDataOf(annotations);
      (d.projectUUID != "" || d.repoUrl != "") <==>
        (Annotation(annotations, ENDOR_PROJECT_UUID) != ""
         || Annotation(annotations, SOURCE_LOCATION) != ""
         || Annotation(annotations, SOURCE_LOCATION_GITHUB) != "")
  {
    var slug := Annotation(annotations, SOURCE_LOCATION_GITHUB);
    assert |GitHubCloneUrl(slug)| > 0;
  }

  /** The slug can be read back from the clone URL built from it. */
  lemma GitHubSlugRecoverable(slug: string)
    ensures var url := GitHubCloneUrl(slug);
      |url| == |slug| + 23 && url[19..|url| - 4] == slug
  {
  }

  /** Distinct slugs give distinct repository URLs. */
  lemma GitHubCloneUrlInjective(slug: string, slug': string)
    requires GitHubCloneUrl(slug) == GitHubCloneUrl(slug')
    ensures slug == slug'
  {
    GitHubSlugRecoverable(slug);
    GitHubSlugRecoverable(slug');
  }
}
