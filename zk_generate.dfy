/** The desired-state synthesizer: the ZookeeperCluster a SolrCloud asks for
    (controllers/util/zk_util.go, GenerateZookeeperCluster), up to but not
    including the cluster type's own defaulting hook. */
module ZkGenerate {
  import opened ZkTypes

  /** The label key and value that mark the generated object as Zookeeper. */
  const TechnologyLabelKey: string := "technology"
  const ZookeeperTechnologyLabel: string := "zookeeper"

  /** The three protocol ports every generated cluster exposes. */
  const ClientPort: Int32 := 2181
  const QuorumPort: Int32 := 2888
  const LeaderElectionPort: Int32 := 3888

  /** Merges `additional` into `base` without overriding any key `base` already has. */
  function MergeLabelsOrAnnotations(base: Labels, additional: Labels): (merged: Labels)
    ensures merged.Keys == base.Keys + additional.Keys
    ensures forall k :: k in base ==> merged[k] == base[k]
    ensures forall k :: k in additional && k !in base ==> merged[k] == additional[k]
  {
    additional + base
  }

  /** The storage discriminant, in priority order: the parent's explicit persistence,
      then its explicit ephemeral storage, then the SolrCloud's own storage choice. */
  function StorageTypeFor(cloud: SolrCloud, zk: ZookeeperSpec): (storageType: string)
    ensures storageType == PersistenceStorage || storageType == EphemeralStorage
    ensures zk.persistence.Some? ==> storageType == PersistenceStorage
    ensures zk.persistence.None? && zk.ephemeral.Some? ==> storageType == EphemeralStorage
    ensures zk.persistence.None? && zk.ephemeral.None? ==>
              (storageType == PersistenceStorage <==> cloud.persistentStorage.Some?)
  {
    if zk.persistence.Some? then PersistenceStorage
    else if zk.ephemeral.Some? then EphemeralStorage
    else if cloud.persistentStorage.Some? then PersistenceStorage
    else EphemeralStorage
  }

  /** The pod's pull-secret list with the parent's singular pull secret, when it names
      one, appended. */
  function ImagePullSecretsFor(zk: ZookeeperSpec): (secrets: seq<LocalObjectReference>)
    ensures zk.image.imagePullSecret == "" ==> secrets == zk.zookeeperPod.imagePullSecrets
    ensures zk.image.imagePullSecret != "" ==>
              && |secrets| == |zk.zookeeperPod.imagePullSecrets| + 1
              && secrets[..|secrets| - 1] == zk.zookeeperPod.imagePullSecrets
              && secrets[|secrets| - 1] == LocalObjectReference(zk.image.imagePullSecret)
  {
    if zk.image.imagePullSecret != "" then
      if |zk.zookeeperPod.imagePullSecrets| > 0 then
        zk.zookeeperPod.imagePullSecrets + [LocalObjectReference(zk.image.imagePullSecret)]
      else
        [LocalObjectReference(zk.image.imagePullSecret)]
    else
      zk.zookeeperPod.imagePullSecrets
  }

  /** The ZookeeperCluster generated for `cloud` from its Zookeeper options `zk`. The
      source dereferences the replica pointer, so a replica count is required. */
  function GenerateZookeeperCluster(cloud: SolrCloud, zk: ZookeeperSpec): (r: Cluster)
    requires zk.replicas.Some?
    // identity and labels
    ensures r.meta.name == cloud.providedZookeeperName && r.meta.namespace == cloud.namespace
    ensures r.meta.labels.Keys == cloud.sharedLabels.Keys + {TechnologyLabelKey}
    ensures r.meta.labels[TechnologyLabelKey] == ZookeeperTechnologyLabel
    ensures forall k :: k in cloud.sharedLabels && k != TechnologyLabelKey ==>
              r.meta.labels[k] == cloud.sharedLabels[k]
    ensures r.spec.labels.Keys == r.meta.labels.Keys + zk.labels.Keys
    ensures forall k :: k in zk.labels ==> r.spec.labels[k] == zk.labels[k]
    ensures forall k :: k in r.meta.labels && k !in zk.labels ==> r.spec.labels[k] == r.meta.labels[k]
    // copied fields
    ensures r.spec.replicas == zk.replicas.value
    ensures r.spec.image == ContainerImage(zk.image.repository, zk.image.tag, zk.image.pullPolicy)
    ensures r.spec.pod.(imagePullSecrets := zk.zookeeperPod.imagePullSecrets) == zk.zookeeperPod
    ensures r.spec.conf == zk.config && r.spec.probes == zk.probes
    ensures r.spec.containers == zk.containers && r.spec.initContainers == zk.initContainers
    ensures r.spec.volumes == zk.volumes && r.spec.volumeMounts == zk.volumeMounts
    ensures r.spec.adminServerService == zk.adminServerService
    ensures r.spec.clientService == zk.clientService && r.spec.headlessService == zk.headlessService
    ensures r.spec.maxUnavailableReplicas == zk.maxUnavailableReplicas
    // the three fixed ports
    ensures |r.spec.ports| == 3
    ensures r.spec.ports[0] == ContainerPort("client", 2181)
    ensures r.spec.ports[1] == ContainerPort("quorum", 2888)
    ensures r.spec.ports[2] == ContainerPort("leader-election", 3888)
    // storage union
    ensures r.spec.storageType == StorageTypeFor(cloud, zk)
    ensures SingleStorageVariant(r.spec)
    ensures r.spec.persistence.Some? <==> zk.persistence.Some?
    ensures r.spec.persistence.Some? ==> r.spec.persistence == zk.persistence
    ensures r.spec.ephemeral.Some? <==> zk.persistence.None? && zk.ephemeral.Some?
    ensures r.spec.ephemeral.Some? ==> r.spec.ephemeral == zk.ephemeral
    // cluster domain, only when the parent supplies one
    ensures r.spec.kubernetesClusterDomain == cloud.kubeDomain
    // image pull secrets
    ensures r.spec.pod.imagePullSecrets == ImagePullSecretsFor(zk)
  {
    var labels := cloud.sharedLabels[TechnologyLabelKey := ZookeeperTechnologyLabel];
    var zkSpecLabels := if |zk.labels| > 0 then MergeLabelsOrAnnotations(zk.labels, labels) else labels;
    var storageType := StorageTypeFor(cloud, zk);
    var persistence :=
      if zk.persistence.Some? && storageType == PersistenceStorage then
        Some(Persistence(zk.persistence.value.volumeReclaimPolicy,
                         zk.persistence.value.persistentVolumeClaimSpec,
                         zk.persistence.value.annotations))
      else None;
    var ephemeral :=
      if !(zk.persistence.Some? && storageType == PersistenceStorage)
         && zk.ephemeral.Some? && storageType == EphemeralStorage then
        Some(Ephemeral(zk.ephemeral.value.emptyDirVolumeSource))
      else None;
    var domain := if cloud.kubeDomain != "" then cloud.kubeDomain else "";
    var pod := zk.zookeeperPod.(imagePullSecrets := ImagePullSecretsFor(zk));
    Cluster(
      ObjectMeta(cloud.providedZookeeperName, cloud.namespace, labels, map[]),
      ZookeeperClusterSpec(
        image := ContainerImage(zk.image.repository, zk.image.tag, zk.image.pullPolicy),
        labels := zkSpecLabels,
        replicas := zk.replicas.value,
        ports := [ContainerPort("client", ClientPort),
                  ContainerPort("quorum", QuorumPort),
                  ContainerPort("leader-election", LeaderElectionPort)],
        pod := pod,
        adminServerService := zk.adminServerService,
        clientService := zk.clientService,
        headlessService := zk.headlessService,
        conf := zk.config,
        containers := zk.containers,
        initContainers := zk.initContainers,
        volumes := zk.volumes,
        volumeMounts := zk.volumeMounts,
        probes := zk.probes,
        maxUnavailableReplicas := zk.maxUnavailableReplicas,
        storageType := storageType,
        persistence := persistence,
        ephemeral := ephemeral,
        kubernetesClusterDomain := domain))
  }
}
