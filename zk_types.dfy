/** Records shared by the ZookeeperCluster synthesizer, the drift reconciler and the
    ACL environment helper: the parent SolrCloud's Zookeeper options (the input of
    generation) and the ZookeeperCluster object (its output, and both sides of
    reconciliation).

    Kubernetes API values that these operations only copy and compare (affinity,
    tolerations, resource requirements, containers, ...) are opaque types compared
    by equality; no quantity arithmetic is modelled. Go's nil and empty
    collections are the same `seq`/`map` value here, which is how the
    nil-tolerant deep equality of the source treats them. */
module ZkTypes {

  datatype Option<+T> = None | Some(value: T)

  /** Go's int32 and int64: values are only copied and compared, never computed. */
  newtype Int32 = x: int | -0x8000_0000 <= x < 0x8000_0000
  newtype Int64 = x: int | -0x8000_0000_0000_0000 <= x < 0x8000_0000_0000_0000

  // Opaque Kubernetes and zookeeper-operator API values.
  type Affinity(==, !new)
  type Toleration(==, !new)
  type TopologySpreadConstraint(==, !new)
  type ResourceRequirements(==, !new)
  type VolumeResourceRequirements(==, !new)
  type PodSecurityContext(==, !new)
  type Container(==, !new)
  type Volume(==, !new)
  type VolumeMount(==, !new)
  type Probes(==, !new)
  type Quantity(==, !new)
  type ZookeeperConfig(==, !new)
  type AdminServerServicePolicy(==, !new)
  type ClientServicePolicy(==, !new)
  type HeadlessServicePolicy(==, !new)
  /** The parent's persistent-storage options; only their presence is read. */
  type PersistentStorageOptions(==, !new)
  /** The claim-spec fields the reconciler never reads or writes
      (selector, volume name, volume mode, data source). */
  type ClaimSpecRest(==, !new)

  type Labels = map<string, string>

  datatype LocalObjectReference = LocalObjectReference(name: string)

  datatype SecretKeySelector = SecretKeySelector(secret: LocalObjectReference, key: string, optional: Option<bool>)

  datatype EnvVarSource = EnvVarSource(secretKeyRef: Option<SecretKeySelector>)

  datatype EnvVar = EnvVar(name: string, value: string, valueFrom: Option<EnvVarSource>)

  datatype ContainerPort = ContainerPort(name: string, containerPort: Int32)

  /** The pod overrides; the parent's ZookeeperPodPolicy and the cluster's PodPolicy
      carry the same twelve fields. */
  datatype PodPolicy = PodPolicy(
    labels: Labels,
    nodeSelector: map<string, string>,
    affinity: Option<Affinity>,
    topologySpreadConstraints: seq<TopologySpreadConstraint>,
    resources: ResourceRequirements,
    tolerations: seq<Toleration>,
    env: seq<EnvVar>,
    annotations: map<string, string>,
    securityContext: Option<PodSecurityContext>,
    terminationGracePeriodSeconds: Int64,
    serviceAccountName: string,
    imagePullSecrets: seq<LocalObjectReference>)

  datatype PersistentVolumeClaimSpec = PersistentVolumeClaimSpec(
    accessModes: seq<string>,
    storageClassName: Option<string>,
    resources: VolumeResourceRequirements,
    rest: ClaimSpecRest)

  /** The persistence variant of the storage union (the parent's ZookeeperPersistence
      has the same three fields). */
  datatype Persistence = Persistence(
    volumeReclaimPolicy: string,
    persistentVolumeClaimSpec: PersistentVolumeClaimSpec,
    annotations: map<string, string>)

  datatype EmptyDirVolumeSource = EmptyDirVolumeSource(medium: string, sizeLimit: Option<Quantity>)

  /** The ephemeral variant of the storage union. */
  datatype Ephemeral = Ephemeral(emptyDirVolumeSource: EmptyDirVolumeSource)

  /** Values of the storage-type discriminant. */
  const PersistenceStorage: string := "persistence"
  const EphemeralStorage: string := "ephemeral"

  /** The parent's image reference: the cluster's three image fields plus a
      singular pull-secret name. */
  datatype SolrContainerImage = SolrContainerImage(
    repository: string, tag: string, pullPolicy: string, imagePullSecret: string)

  /** The parent's Zookeeper options (solr's ZookeeperSpec). */
  datatype ZookeeperSpec = ZookeeperSpec(
    replicas: Option<Int32>,
    image: SolrContainerImage,
    labels: Labels,
    zookeeperPod: PodPolicy,
    adminServerService: AdminServerServicePolicy,
    clientService: ClientServicePolicy,
    headlessService: HeadlessServicePolicy,
    config: ZookeeperConfig,
    containers: seq<Container>,
    initContainers: seq<Container>,
    volumes: seq<Volume>,
    volumeMounts: seq<VolumeMount>,
    probes: Option<Probes>,
    maxUnavailableReplicas: Int32,
    persistence: Option<Persistence>,
    ephemeral: Option<Ephemeral>)

  /** What generation reads of the parent SolrCloud. `sharedLabels` is the result of
      its SharedLabelsWith(GetLabels()) accessor and `providedZookeeperName` that of
      ProvidedZookeeperName(); both accessors are outside this model. */
  datatype SolrCloud = SolrCloud(
    sharedLabels: Labels,
    providedZookeeperName: string,
    namespace: string,
    persistentStorage: Option<PersistentStorageOptions>,
    kubeDomain: string)

  /** The cluster's image (zookeeper-operator's ContainerImage). */
  datatype ContainerImage = ContainerImage(repository: string, tag: string, pullPolicy: string)

  /** The fields of zookeeper-operator's ZookeeperClusterSpec that are generated or reconciled. */
  datatype ZookeeperClusterSpec = ZookeeperClusterSpec(
    image: ContainerImage,
    labels: Labels,
    replicas: Int32,
    ports: seq<ContainerPort>,
    pod: PodPolicy,
    adminServerService: AdminServerServicePolicy,
    clientService: ClientServicePolicy,
    headlessService: HeadlessServicePolicy,
    conf: ZookeeperConfig,
    containers: seq<Container>,
    initContainers: seq<Container>,
    volumes: seq<Volume>,
    volumeMounts: seq<VolumeMount>,
    probes: Option<Probes>,
    maxUnavailableReplicas: Int32,
    storageType: string,
    persistence: Option<Persistence>,
    ephemeral: Option<Ephemeral>,
    kubernetesClusterDomain: string)

  datatype ObjectMeta = ObjectMeta(name: string, namespace: string, labels: Labels, annotations: map<string, string>)

  /** A ZookeeperCluster object as a value. */
  datatype Cluster = Cluster(meta: ObjectMeta, spec: ZookeeperClusterSpec)

  /** At most one storage variant is populated, and a populated one is the one the
      discriminant names. */
  predicate SingleStorageVariant(spec: ZookeeperClusterSpec) {
    && !(spec.persistence.Some? && spec.ephemeral.Some?)
    && (spec.persistence.Some? ==> spec.storageType == PersistenceStorage)
    && (spec.ephemeral.Some? ==> spec.storageType == EphemeralStorage)
  }
}
