/** The custom resources, as values: SharedVolume and ClusterSharedVolume share one spec. */
module VolumeTypes {
  import opened Common

  /** Which kinds of source a spec names; `fieldsValid` abstracts the per-kind field checks. */
  datatype SourceSpec = SourceSpec(ssh: bool, http: bool, git: bool, s3: bool, fieldsValid: bool)

  datatype StorageSpec = StorageSpec(capacity: string, accessMode: string)

  datatype NfsServerSpec = NfsServerSpec(name: string, namespace: string, url: string, image: string, path: string)

  datatype VolumeSpec = VolumeSpec(
    nfsServer: Option<NfsServerSpec>,
    mountPath: string,
    syncInterval: string,
    syncTimeout: string,
    storage: Option<StorageSpec>,
    source: Option<SourceSpec>,
    storageClassName: string,
    resourceNamespace: string,
    referenceValue: string)

  /** A SharedVolume lives in a namespace; a ClusterSharedVolume has the empty namespace. */
  datatype VolumeKind = Namespaced | Cluster

  /** time.ParseDuration, kept abstract: a partial map from text to a length of time. */
  type DurationParser = string -> Option<int>

  predicate HasValidSource(spec: VolumeSpec) {
    spec.source.Some? &&
    (spec.source.value.ssh || spec.source.value.http || spec.source.value.git || spec.source.value.s3)
  }
}
