/** The drift reconciler (controllers/util/zk_util.go, CopyZookeeperClusterFields):
    copies the owned fields of a desired ZookeeperCluster (`from`) onto the live one
    (`to`) and reports whether the live object must be written back.

    `Reconcile` states the outcome declaratively, field by field: the value each
    field ends with and whether its decision asks for an update. The method
    `CopyZookeeperClusterFields` does the same work step by step on a
    `ZookeeperCluster` object and is proved to agree with it; the lemmas in
    ZkReconcileProperties state the reconciler's policies about `Reconcile`. */
module ZkReconcile {
  import opened ZkTypes

  /** A value produced by copying, and whether producing it changed anything. */
  datatype Copied<T> = Copied(value: T, changed: bool)

  /** The label/annotation and resource-merge helpers the reconciler delegates to.
      Their code is not part of this model; each takes the `from` and the `to` value
      and hands back the new `to` value and whether it changed. */
  datatype Collaborators = Collaborators(
    copyLabelsAndAnnotations: (ObjectMeta, ObjectMeta) -> Copied<ObjectMeta>,
    copyResources: (ResourceRequirements, ResourceRequirements) -> Copied<ResourceRequirements>,
    copyVolumeResources: (VolumeResourceRequirements, VolumeResourceRequirements) -> Copied<VolumeResourceRequirements>)

  /** The always-sync policy for one field: the desired value is taken, and the field
      counts as changed exactly when the live value differs from it. */
  function SyncAlways<T(==)>(from: T, to: T): (r: Copied<T>)
    ensures r.value == from
    ensures r.changed <==> to != from
  {
    if to != from then Copied(from, true) else Copied(to, false)
  }

  /** The default service account the zookeeper operator assigns when none is given. */
  const DefaultServiceAccountName: string := "default"

  /** The service account is copied, and counts as changed, only when it differs and
      either the desired name is non-empty or the live one is not the operator's default. */
  predicate ServiceAccountSync(from: string, to: string) {
    to != from && (from != "" || to != DefaultServiceAccountName)
  }

  /** Merges into an existing persistence variant: claim resources through the
      collaborator; access modes, storage class, reclaim policy and annotations synced. */
  function MergePersistence(from: Persistence, to: Persistence, c: Collaborators): Copied<Persistence> {
    var fromClaim := from.persistentVolumeClaimSpec;
    var toClaim := to.persistentVolumeClaimSpec;
    var resources := c.copyVolumeResources(fromClaim.resources, toClaim.resources);
    Copied(
      Persistence(
        from.volumeReclaimPolicy,
        toClaim.(resources := resources.value,
                 accessModes := fromClaim.accessModes,
                 storageClassName := fromClaim.storageClassName),
        from.annotations),
      || resources.changed
      || toClaim.accessModes != fromClaim.accessModes
      || toClaim.storageClassName != fromClaim.storageClassName
      || to.volumeReclaimPolicy != from.volumeReclaimPolicy
      || to.annotations != from.annotations)
  }

  /** Merges into an existing ephemeral variant: medium and size limit synced. */
  function MergeEphemeral(from: Ephemeral, to: Ephemeral): Copied<Ephemeral> {
    var fromDir := from.emptyDirVolumeSource;
    var toDir := to.emptyDirVolumeSource;
    Copied(
      Ephemeral(toDir.(medium := fromDir.medium, sizeLimit := fromDir.sizeLimit)),
      toDir.medium != fromDir.medium || toDir.sizeLimit != fromDir.sizeLimit)
  }

  /** The storage union once the discriminant is synced to `from`'s. */
  datatype Storage = Storage(persistence: Option<Persistence>, ephemeral: Option<Ephemeral>)

  /** The variant `from`'s discriminant selects is adopted when the live object has
      none, merged when it has one, and cleared when `from` has none; the other
      variant is cleared. Any other discriminant leaves both variants alone. */
  function ReconcileStorage(from: ZookeeperClusterSpec, to: ZookeeperClusterSpec, c: Collaborators): Copied<Storage> {
    if from.storageType == PersistenceStorage then
      var clearEphemeral := to.ephemeral.Some?;
      if from.persistence.Some? then
        if to.persistence.None? then
          Copied(Storage(from.persistence, None), true)
        else
          var merged := MergePersistence(from.persistence.value, to.persistence.value, c);
          Copied(Storage(Some(merged.value), None), clearEphemeral || merged.changed)
      else
        Copied(Storage(None, None), clearEphemeral || to.persistence.Some?)
    else if from.storageType == EphemeralStorage then
      var clearPersistence := to.persistence.Some?;
      if from.ephemeral.Some? then
        if to.ephemeral.None? then
          Copied(Storage(None, from.ephemeral), true)
        else
          var merged := MergeEphemeral(from.ephemeral.value, to.ephemeral.value);
          Copied(Storage(None, Some(merged.value)), clearPersistence || merged.changed)
      else
        Copied(Storage(None, None), clearPersistence || to.ephemeral.Some?)
    else
      Copied(Storage(to.persistence, to.ephemeral), false)
  }

  /** The pod policy: resources through the collaborator, the affinity always taken
      but counted only when one is desired, the service account under its own rule,
      every other field always synced. */
  function ReconcilePod(from: PodPolicy, to: PodPolicy, c: Collaborators): Copied<PodPolicy> {
    var resources := c.copyResources(from.resources, to.resources);
    var syncAccount := ServiceAccountSync(from.serviceAccountName, to.serviceAccountName);
    Copied(
      from.(resources := resources.value,
            serviceAccountName := if syncAccount then from.serviceAccountName else to.serviceAccountName),
      || resources.changed
      || to.env != from.env
      || to.tolerations != from.tolerations
      || to.nodeSelector != from.nodeSelector
      || (to.affinity != from.affinity && from.affinity.Some?)
      || syncAccount
      || to.labels != from.labels
      || to.annotations != from.annotations
      || to.securityContext != from.securityContext
      || to.terminationGracePeriodSeconds != from.terminationGracePeriodSeconds
      || to.imagePullSecrets != from.imagePullSecrets
      || to.topologySpreadConstraints != from.topologySpreadConstraints)
  }

  /** The image: repository, tag and pull policy are all taken from `from`; an empty
      desired tag is taken too but does not count as a change. */
  function ReconcileImage(from: ContainerImage, to: ContainerImage): Copied<ContainerImage> {
    Copied(
      from,
      || to.repository != from.repository
      || (from.tag != "" && to.tag != from.tag)
      || to.pullPolicy != from.pullPolicy)
  }

  /** The whole reconciliation of `to` toward `from`: the new live object, and whether
      it must be written back. */
  function Reconcile(from: Cluster, to: Cluster, c: Collaborators): Copied<Cluster> {
    var meta := c.copyLabelsAndAnnotations(from.meta, to.meta);
    var f := from.spec;
    var t := to.spec;
    var image := ReconcileImage(f.image, t.image);
    var storage := ReconcileStorage(f, t, c);
    var pod := ReconcilePod(f.pod, t.pod, c);
    Copied(
      Cluster(
        meta.value,
        t.(replicas := f.replicas,
           labels := f.labels,
           image := image.value,
           storageType := f.storageType,
           persistence := storage.value.persistence,
           ephemeral := storage.value.ephemeral,
           pod := pod.value,
           kubernetesClusterDomain := f.kubernetesClusterDomain,
           probes := f.probes,
           conf := f.conf,
           containers := f.containers,
           initContainers := f.initContainers,
           volumes := f.volumes,
           volumeMounts := f.volumeMounts,
           adminServerService := f.adminServerService,
           clientService := f.clientService,
           headlessService := f.headlessService,
           maxUnavailableReplicas := f.maxUnavailableReplicas)),
      || meta.changed
      || t.replicas != f.replicas
      || t.labels != f.labels
      || image.changed
      || t.storageType != f.storageType
      || storage.changed
      || pod.changed
      || (t.kubernetesClusterDomain != f.kubernetesClusterDomain && f.kubernetesClusterDomain != "")
      || t.probes != f.probes
      || t.conf != f.conf
      || t.containers != f.containers
      || t.initContainers != f.initContainers
      || t.volumes != f.volumes
      || t.volumeMounts != f.volumeMounts
      || t.adminServerService != f.adminServerService
      || t.clientService != f.clientService
      || t.headlessService != f.headlessService
      || t.maxUnavailableReplicas != f.maxUnavailableReplicas)
  }

  /** A live ZookeeperCluster object, whose fields the reconciler updates in place. */
  class ZookeeperCluster {
    var meta: ObjectMeta
    var spec: ZookeeperClusterSpec

    constructor (value: Cluster)
      ensures Value() == value
    {
      meta := value.meta;
      spec := value.spec;
    }

    function Value(): Cluster
      reads this
    {
      Cluster(meta, spec)
    }
  }

  /** Copies the owned fields of `from` onto `to`, one field after another, and returns
      whether any field decision asked for an update. */
  method CopyZookeeperClusterFields(from: ZookeeperCluster, to: ZookeeperCluster, c: Collaborators)
    returns (requireUpdate: bool)
    modifies to
    ensures to.Value() == Reconcile(old(from.Value()), old(to.Value()), c).value
    ensures requireUpdate == Reconcile(old(from.Value()), old(to.Value()), c).changed
  {
    // `from` is only read; reading it once up front is the same as reading it field
    // by field, since no later step reads a field that an earlier step writes.
    var desired := from.Value();
    var d := desired.spec;

    var meta := c.copyLabelsAndAnnotations(desired.meta, to.meta);
    to.meta := meta.value;
    requireUpdate := meta.changed;

    var replicas := SyncAlways(d.replicas, to.spec.replicas);
    to.spec := to.spec.(replicas := replicas.value);
    requireUpdate := requireUpdate || replicas.changed;

    var labels := SyncAlways(d.labels, to.spec.labels);
    to.spec := to.spec.(labels := labels.value);
    requireUpdate := requireUpdate || labels.changed;

    var imageChanged := CopyImageFields(d.image, to);
    requireUpdate := requireUpdate || imageChanged;

    var storageChanged := CopyStorageFields(d, to, c);
    requireUpdate := storageChanged || requireUpdate;

    var podChanged := CopyPodFields(d.pod, to, c);
    requireUpdate := podChanged || requireUpdate;

    var servicesChanged := CopyRemainingFields(d, to);
    requireUpdate := requireUpdate || servicesChanged;
  }

  /** The image fields: repository and pull policy always synced; the tag always
      taken, but a difference counted only when the desired tag is non-empty. */
  method CopyImageFields(from: ContainerImage, to: ZookeeperCluster) returns (requireUpdate: bool)
    modifies to
    ensures to.meta == old(to.meta)
    ensures to.spec == old(to.spec).(image := ReconcileImage(from, old(to.spec).image).value)
    ensures requireUpdate == ReconcileImage(from, old(to.spec).image).changed
  {
    var repository := SyncAlways(from.repository, to.spec.image.repository);
    to.spec := to.spec.(image := to.spec.image.(repository := repository.value));
    requireUpdate := repository.changed;

    if from.tag != "" && to.spec.image.tag != from.tag {
      requireUpdate := true;
    }
    to.spec := to.spec.(image := to.spec.image.(tag := from.tag));

    var pullPolicy := SyncAlways(from.pullPolicy, to.spec.image.pullPolicy);
    to.spec := to.spec.(image := to.spec.image.(pullPolicy := pullPolicy.value));
    requireUpdate := requireUpdate || pullPolicy.changed;
  }

  /** The storage-type discriminant and the storage union, on the live object. */
  method CopyStorageFields(d: ZookeeperClusterSpec, to: ZookeeperCluster, c: Collaborators)
    returns (requireUpdate: bool)
    modifies to
    ensures to.meta == old(to.meta)
    ensures to.spec == old(to.spec).(
              storageType := d.storageType,
              persistence := ReconcileStorage(d, old(to.spec), c).value.persistence,
              ephemeral := ReconcileStorage(d, old(to.spec), c).value.ephemeral)
    ensures requireUpdate == (old(to.spec).storageType != d.storageType
                              || ReconcileStorage(d, old(to.spec), c).changed)
  {
    requireUpdate := false;
    if to.spec.storageType != d.storageType {
      requireUpdate := true;
      to.spec := to.spec.(storageType := d.storageType);
    }
    if to.spec.storageType == PersistenceStorage {
      if to.spec.ephemeral.Some? {
        requireUpdate := true;
        to.spec := to.spec.(ephemeral := None);
      }
      if d.persistence.Some? {
        if to.spec.persistence.None? {
          requireUpdate := true;
          to.spec := to.spec.(persistence := d.persistence);
        } else {
          var merged := CopyPersistenceFields(d.persistence.value, to.spec.persistence.value, c);
          requireUpdate := merged.changed || requireUpdate;
          to.spec := to.spec.(persistence := Some(merged.value));
        }
      } else if to.spec.persistence.Some? {
        requireUpdate := true;
        to.spec := to.spec.(persistence := None);
      }
    } else if to.spec.storageType == EphemeralStorage {
      if to.spec.persistence.Some? {
        requireUpdate := true;
        to.spec := to.spec.(persistence := None);
      }
      if d.ephemeral.Some? {
        if to.spec.ephemeral.None? {
          requireUpdate := true;
          to.spec := to.spec.(ephemeral := d.ephemeral);
        } else {
          var from := d.ephemeral.value.emptyDirVolumeSource;
          var e := to.spec.ephemeral.value;
          var medium := SyncAlways(from.medium, e.emptyDirVolumeSource.medium);
          var sizeLimit := SyncAlways(from.sizeLimit, e.emptyDirVolumeSource.sizeLimit);
          requireUpdate := requireUpdate || medium.changed || sizeLimit.changed;
          to.spec := to.spec.(ephemeral := Some(e.(emptyDirVolumeSource :=
            e.emptyDirVolumeSource.(medium := medium.value, sizeLimit := sizeLimit.value))));
        }
      } else if to.spec.ephemeral.Some? {
        requireUpdate := true;
        to.spec := to.spec.(ephemeral := None);
      }
    }
  }

  /** The merge of an existing persistence variant, field after field. */
  method CopyPersistenceFields(from: Persistence, to: Persistence, c: Collaborators)
    returns (r: Copied<Persistence>)
    ensures r == MergePersistence(from, to, c)
  {
    var p := to;
    var fromClaim := from.persistentVolumeClaimSpec;
    var resources := c.copyVolumeResources(fromClaim.resources, p.persistentVolumeClaimSpec.resources);
    p := p.(persistentVolumeClaimSpec := p.persistentVolumeClaimSpec.(resources := resources.value));
    var changed := resources.changed;

    var accessModes := SyncAlways(fromClaim.accessModes, p.persistentVolumeClaimSpec.accessModes);
    p := p.(persistentVolumeClaimSpec := p.persistentVolumeClaimSpec.(accessModes := accessModes.value));
    changed := changed || accessModes.changed;

    var storageClassName := SyncAlways(fromClaim.storageClassName, p.persistentVolumeClaimSpec.storageClassName);
    p := p.(persistentVolumeClaimSpec := p.persistentVolumeClaimSpec.(storageClassName := storageClassName.value));
    changed := changed || storageClassName.changed;

    var reclaimPolicy := SyncAlways(from.volumeReclaimPolicy, p.volumeReclaimPolicy);
    p := p.(volumeReclaimPolicy := reclaimPolicy.value);
    changed := changed || reclaimPolicy.changed;

    var annotations := SyncAlways(from.annotations, p.annotations);
    p := p.(annotations := annotations.value);
    changed := changed || annotations.changed;

    r := Copied(p, changed);
  }

  /** The pod-policy fields, on the live object. */
  method CopyPodFields(from: PodPolicy, to: ZookeeperCluster, c: Collaborators) returns (requireUpdate: bool)
    modifies to
    ensures to.meta == old(to.meta)
    ensures to.spec == old(to.spec).(pod := ReconcilePod(from, old(to.spec).pod, c).value)
    ensures requireUpdate == ReconcilePod(from, old(to.spec).pod, c).changed
  {
    // The pod policy is a value inside the spec: it is updated field by field and
    // stored back into the live object at the end.
    var scheduling := CopyPodSchedulingFields(from, to.spec.pod, c);
    var rest := CopyPodRemainingFields(from, scheduling.value);
    requireUpdate := scheduling.changed || rest.changed;
    to.spec := to.spec.(pod := rest.value);
  }

  /** Resources, environment, tolerations, node selector, affinity and service account. */
  method CopyPodSchedulingFields(from: PodPolicy, to: PodPolicy, c: Collaborators) returns (r: Copied<PodPolicy>)
    ensures r.value == to.(resources := c.copyResources(from.resources, to.resources).value,
                           env := from.env,
                           tolerations := from.tolerations,
                           nodeSelector := from.nodeSelector,
                           affinity := from.affinity,
                           serviceAccountName := ReconcilePod(from, to, c).value.serviceAccountName)
    ensures r.changed == (
              || c.copyResources(from.resources, to.resources).changed
              || to.env != from.env
              || to.tolerations != from.tolerations
              || to.nodeSelector != from.nodeSelector
              || (to.affinity != from.affinity && from.affinity.Some?)
              || ServiceAccountSync(from.serviceAccountName, to.serviceAccountName))
  {
    var pod := to;
    var resources := c.copyResources(from.resources, pod.resources);
    pod := pod.(resources := resources.value);
    var changed := resources.changed;

    var env := SyncAlways(from.env, pod.env);
    pod := pod.(env := env.value);
    changed := changed || env.changed;

    var tolerations := SyncAlways(from.tolerations, pod.tolerations);
    pod := pod.(tolerations := tolerations.value);
    changed := changed || tolerations.changed;

    var nodeSelector := SyncAlways(from.nodeSelector, pod.nodeSelector);
    pod := pod.(nodeSelector := nodeSelector.value);
    changed := changed || nodeSelector.changed;

    // The zookeeper operator defaults the affinity: only a desired affinity counts
    // as a change, but the field is always taken.
    if pod.affinity != from.affinity && from.affinity.Some? {
      changed := true;
    }
    pod := pod.(affinity := from.affinity);

    // The zookeeper operator defaults the service account to "default".
    if ServiceAccountSync(from.serviceAccountName, pod.serviceAccountName) {
      changed := true;
      pod := pod.(serviceAccountName := from.serviceAccountName);
    }
    r := Copied(pod, changed);
  }

  /** Labels, annotations, security context, grace period, pull secrets and topology
      spread constraints, all always synced. */
  method CopyPodRemainingFields(from: PodPolicy, to: PodPolicy) returns (r: Copied<PodPolicy>)
    ensures r.value == to.(labels := from.labels,
                           annotations := from.annotations,
                           securityContext := from.securityContext,
                           terminationGracePeriodSeconds := from.terminationGracePeriodSeconds,
                           imagePullSecrets := from.imagePullSecrets,
                           topologySpreadConstraints := from.topologySpreadConstraints)
    ensures r.changed == (
              || to.labels != from.labels
              || to.annotations != from.annotations
              || to.securityContext != from.securityContext
              || to.terminationGracePeriodSeconds != from.terminationGracePeriodSeconds
              || to.imagePullSecrets != from.imagePullSecrets
              || to.topologySpreadConstraints != from.topologySpreadConstraints)
  {
    var pod := to;
    var labels := SyncAlways(from.labels, pod.labels);
    pod := pod.(labels := labels.value);
    var changed := labels.changed;

    var annotations := SyncAlways(from.annotations, pod.annotations);
    pod := pod.(annotations := annotations.value);
    changed := changed || annotations.changed;

    var securityContext := SyncAlways(from.securityContext, pod.securityContext);
    pod := pod.(securityContext := securityContext.value);
    changed := changed || securityContext.changed;

    var grace := SyncAlways(from.terminationGracePeriodSeconds, pod.terminationGracePeriodSeconds);
    pod := pod.(terminationGracePeriodSeconds := grace.value);
    changed := changed || grace.changed;

    var pullSecrets := SyncAlways(from.imagePullSecrets, pod.imagePullSecrets);
    pod := pod.(imagePullSecrets := pullSecrets.value);
    changed := changed || pullSecrets.changed;

    var topology := SyncAlways(from.topologySpreadConstraints, pod.topologySpreadConstraints);
    pod := pod.(topologySpreadConstraints := topology.value);
    changed := changed || topology.changed;
    r := Copied(pod, changed);
  }

  /** The cluster domain (always taken, counted only when non-empty), then probes,
      configuration, containers, volumes, services and the disruption budget. */
  method CopyRemainingFields(d: ZookeeperClusterSpec, to: ZookeeperCluster) returns (requireUpdate: bool)
    modifies to
    ensures to.meta == old(to.meta)
    ensures to.spec == old(to.spec).(
              kubernetesClusterDomain := d.kubernetesClusterDomain,
              probes := d.probes,
              conf := d.conf,
              containers := d.containers,
              initContainers := d.initContainers,
              volumes := d.volumes,
              volumeMounts := d.volumeMounts,
              adminServerService := d.adminServerService,
              clientService := d.clientService,
              headlessService := d.headlessService,
              maxUnavailableReplicas := d.maxUnavailableReplicas)
    ensures var t := old(to.spec);
            requireUpdate == (
              || (t.kubernetesClusterDomain != d.kubernetesClusterDomain && d.kubernetesClusterDomain != "")
              || t.probes != d.probes
              || t.conf != d.conf
              || t.containers != d.containers
              || t.initContainers != d.initContainers
              || t.volumes != d.volumes
              || t.volumeMounts != d.volumeMounts
              || t.adminServerService != d.adminServerService
              || t.clientService != d.clientService
              || t.headlessService != d.headlessService
              || t.maxUnavailableReplicas != d.maxUnavailableReplicas)
  {
    requireUpdate := false;
    if to.spec.kubernetesClusterDomain != d.kubernetesClusterDomain && d.kubernetesClusterDomain != "" {
      requireUpdate := true;
    }
    to.spec := to.spec.(kubernetesClusterDomain := d.kubernetesClusterDomain);

    var probes := SyncAlways(d.probes, to.spec.probes);
    to.spec := to.spec.(probes := probes.value);
    requireUpdate := requireUpdate || probes.changed;

    var conf := SyncAlways(d.conf, to.spec.conf);
    to.spec := to.spec.(conf := conf.value);
    requireUpdate := requireUpdate || conf.changed;

    var containers := SyncAlways(d.containers, to.spec.containers);
    to.spec := to.spec.(containers := containers.value);
    requireUpdate := requireUpdate || containers.changed;

    var initContainers := SyncAlways(d.initContainers, to.spec.initContainers);
    to.spec := to.spec.(initContainers := initContainers.value);
    requireUpdate := requireUpdate || initContainers.changed;

    var volumes := SyncAlways(d.volumes, to.spec.volumes);
    to.spec := to.spec.(volumes := volumes.value);
    requireUpdate := requireUpdate || volumes.changed;

    var volumeMounts := SyncAlways(d.volumeMounts, to.spec.volumeMounts);
    to.spec := to.spec.(volumeMounts := volumeMounts.value);
    requireUpdate := requireUpdate || volumeMounts.changed;

    var adminServerService := SyncAlways(d.adminServerService, to.spec.adminServerService);
    to.spec := to.spec.(adminServerService := adminServerService.value);
    requireUpdate := requireUpdate || adminServerService.changed;

    var clientService := SyncAlways(d.clientService, to.spec.clientService);
    to.spec := to.spec.(clientService := clientService.value);
    requireUpdate := requireUpdate || clientService.changed;

    var headlessService := SyncAlways(d.headlessService, to.spec.headlessService);
    to.spec := to.spec.(headlessService := headlessService.value);
    requireUpdate := requireUpdate || headlessService.changed;

    var maxUnavailable := SyncAlways(d.maxUnavailableReplicas, to.spec.maxUnavailableReplicas);
    to.spec := to.spec.(maxUnavailableReplicas := maxUnavailable.value);
    requireUpdate := requireUpdate || maxUnavailable.changed;
  }
}
