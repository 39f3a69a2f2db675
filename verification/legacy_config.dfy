/** The older plugin's `useEndorEntityData` and `useEndorConfigData`
    (plugins/endor/src/components/EndorComponent/config.ts), which know only
    the namespace and the project UUID. The annotation lookup, the
    annotation names and `useEndorConfigData` are the same as the newer
    plugin's and are shared with `EntityConfig`. */
module LegacyConfig {
  import opened EntityConfig

  datatype LegacyEntityData = LegacyEntityData(namespace: string, projectUUID: string)

  /** `useEndorEntityData`: the two annotations, "" where missing. */
  function LegacyEntityDataOf(annotations: Annotations): (d: LegacyEntityData)
    ensures annotations.Some? && ENDOR_NAMESPACE in annotations.value ==> d.namespace == annotations.value[ENDOR_NAMESPACE]
    ensures annotations.None? || ENDOR_NAMESPACE !in annotations.value ==> d.namespace == ""
    ensures annotations.Some? && ENDOR_PROJECT_UUID in annotations.value ==> d.projectUUID == annotations.value[ENDOR_PROJECT_UUID]
    ensures annotations.None? || ENDOR_PROJECT_UUID !in annotations.value ==> d.projectUUID == ""
  {
    LegacyEntityData(Annotation(annotations, ENDOR_NAMESPACE), Annotation(annotations, ENDOR_PROJECT_UUID))
  }

  /** The newer plugin resolves the namespace and the project UUID exactly
      as the older one did; it only adds the repository URL. */
  lemma AgreesWithNewerPlugin(annotations: Annotations)
    ensures LegacyEntityDataOf(annotations).namespace == EntityDataOf(annotations).namespace
    ensures LegacyEntityDataOf(annotations).projectUUID == EntityDataOf(annotations).projectUUID
  {
  }
}
