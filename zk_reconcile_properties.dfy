/** The reconciler's policies, stated about `ZkReconcile.Reconcile` (and so, through
    its contract, about the in-place `CopyZookeeperClusterFields`): which fields are
    always synced, which are never touched, how the storage union is rebuilt, which
    differences are taken without asking for an update, and when reconciling changes
    nothing. */
module ZkReconcileProperties {
  import opened ZkTypes
  import opened ZkReconcile
  import ZkGenerate

  /** The helpers report no change, and return their input, when both sides agree. */
  ghost predicate Quiescent(c: Collaborators) {
    && (forall m :: c.copyLabelsAndAnnotations(m, m) == Copied(m, false))
    && (forall r :: c.copyResources(r, r) == Copied(r, false))
    && (forall v :: c.copyVolumeResources(v, v) == Copied(v, false))
  }

  /** Copying a second time from the same source onto the helpers' own result changes
      nothing. */
  ghost predicate Settles(c: Collaborators) {
    && (forall f, t :: c.copyLabelsAndAnnotations(f, c.copyLabelsAndAnnotations(f, t).value)
                       == Copied(c.copyLabelsAndAnnotations(f, t).value, false))
    && (forall f, t :: c.copyResources(f, c.copyResources(f, t).value)
                       == Copied(c.copyResources(f, t).value, false))
    && (forall f, t :: c.copyVolumeResources(f, c.copyVolumeResources(f, t).value)
                       == Copied(c.copyVolumeResources(f, t).value, false))
  }

  /** A helper that reports no change leaves its `to` value as it was. */
  ghost predicate Honest(c: Collaborators) {
    && (forall f, t :: !c.copyLabelsAndAnnotations(f, t).changed ==> c.copyLabelsAndAnnotations(f, t).value == t)
    && (forall f, t :: !c.copyResources(f, t).changed ==> c.copyResources(f, t).value == t)
    && (forall f, t :: !c.copyVolumeResources(f, t).changed ==> c.copyVolumeResources(f, t).value == t)
  }

  /** Every always-synced field ends with `from`'s value, and a difference in any of
      them asks for an update. */
  lemma ReconcileAlwaysSyncs(from: Cluster, to: Cluster, c: Collaborators)
    ensures var r := Reconcile(from, to, c).value.spec;
            && r.replicas == from.spec.replicas && r.labels == from.spec.labels
            && r.image.repository == from.spec.image.repository
            && r.image.pullPolicy == from.spec.image.pullPolicy
            && r.storageType == from.spec.storageType
            && r.probes == from.spec.probes && r.conf == from.spec.conf
            && r.containers == from.spec.containers && r.initContainers == from.spec.initContainers
            && r.volumes == from.spec.volumes && r.volumeMounts == from.spec.volumeMounts
            && r.adminServerService == from.spec.adminServerService
            && r.clientService == from.spec.clientService
            && r.headlessService == from.spec.headlessService
            && r.maxUnavailableReplicas == from.spec.maxUnavailableReplicas
            && r.pod.env == from.spec.pod.env && r.pod.tolerations == from.spec.pod.tolerations
            && r.pod.nodeSelector == from.spec.pod.nodeSelector
            && r.pod.labels == from.spec.pod.labels && r.pod.annotations == from.spec.pod.annotations
            && r.pod.securityContext == from.spec.pod.securityContext
            && r.pod.terminationGracePeriodSeconds == from.spec.pod.terminationGracePeriodSeconds
            && r.pod.imagePullSecrets == from.spec.pod.imagePullSecrets
            && r.pod.topologySpreadConstraints == from.spec.pod.topologySpreadConstraints
    ensures var f := from.spec; var t := to.spec;
            (|| t.replicas != f.replicas || t.labels != f.labels
             || t.image.repository != f.image.repository || t.image.pullPolicy != f.image.pullPolicy
             || t.storageType != f.storageType
             || t.probes != f.probes || t.conf != f.conf
             || t.containers != f.containers || t.initContainers != f.initContainers
             || t.volumes != f.volumes || t.volumeMounts != f.volumeMounts
             || t.adminServerService != f.adminServerService || t.clientService != f.clientService
             || t.headlessService != f.headlessService
             || t.maxUnavailableReplicas != f.maxUnavailableReplicas
             || t.pod.env != f.pod.env || t.pod.tolerations != f.pod.tolerations
             || t.pod.nodeSelector != f.pod.nodeSelector
             || t.pod.labels != f.pod.labels || t.pod.annotations != f.pod.annotations
             || t.pod.securityContext != f.pod.securityContext
             || t.pod.terminationGracePeriodSeconds != f.pod.terminationGracePeriodSeconds
             || t.pod.imagePullSecrets != f.pod.imagePullSecrets
             || t.pod.topologySpreadConstraints != f.pod.topologySpreadConstraints)
            ==> Reconcile(from, to, c).changed
  {
  }

  /** The reconciler does not own the ports: they stay as the live object has them,
      and no difference in them asks for an update. */
  lemma ReconcileLeavesPortsUntouched(from: Cluster, to: Cluster, c: Collaborators, ports: seq<ContainerPort>)
    ensures Reconcile(from, to, c).value.spec.ports == to.spec.ports
    ensures var to' := to.(spec := to.spec.(ports := ports));
            Reconcile(from, to', c) == Copied(Reconcile(from, to, c).value.(spec := Reconcile(from, to, c).value.spec.(ports := ports)),
                                              Reconcile(from, to, c).changed)
  {
  }

  /** With a persistence discriminant, the ephemeral variant is cleared; the persistence
      variant is present iff `from` has one, is adopted whole (asking for an update)
      when the live object has none, and otherwise takes `from`'s reclaim policy,
      annotations, access modes and storage class while keeping its other claim fields. */
  lemma ReconcilePersistenceUnion(from: Cluster, to: Cluster, c: Collaborators)
    requires from.spec.storageType == PersistenceStorage
    ensures var r := Reconcile(from, to, c);
            && r.value.spec.ephemeral.None?
            && (r.value.spec.persistence.Some? <==> from.spec.persistence.Some?)
            && (from.spec.persistence.Some? && to.spec.persistence.None? ==>
                  r.value.spec.persistence == from.spec.persistence && r.changed)
            && (from.spec.persistence.Some? && to.spec.persistence.Some? ==>
                  var p := r.value.spec.persistence.value;
                  var fp := from.spec.persistence.value;
                  var tp := to.spec.persistence.value;
                  && p.volumeReclaimPolicy == fp.volumeReclaimPolicy
                  && p.annotations == fp.annotations
                  && p.persistentVolumeClaimSpec.accessModes == fp.persistentVolumeClaimSpec.accessModes
                  && p.persistentVolumeClaimSpec.storageClassName == fp.persistentVolumeClaimSpec.storageClassName
                  && p.persistentVolumeClaimSpec.rest == tp.persistentVolumeClaimSpec.rest)
            && (to.spec.ephemeral.Some? ==> r.changed)
            && (from.spec.persistence.None? && to.spec.persistence.Some? ==> r.changed)
  {
  }

  /** With an ephemeral discriminant, the persistence variant is cleared and the
      ephemeral variant ends exactly as `from` has it, asking for an update when the
      live object had a different one or a persistence variant. */
  lemma ReconcileEphemeralUnion(from: Cluster, to: Cluster, c: Collaborators)
    requires from.spec.storageType == EphemeralStorage
    ensures var r := Reconcile(from, to, c);
            && r.value.spec.persistence.None?
            && r.value.spec.ephemeral == from.spec.ephemeral
            && (to.spec.persistence.Some? ==> r.changed)
            && (to.spec.ephemeral != from.spec.ephemeral ==> r.changed)
  {
  }

  /** With any other discriminant both variants are left as the live object has them,
      and they do not ask for an update. */
  lemma ReconcileOtherStorageTypeKeepsVariants(from: Cluster, to: Cluster, c: Collaborators)
    requires from.spec.storageType != PersistenceStorage && from.spec.storageType != EphemeralStorage
    ensures Reconcile(from, to, c).value.spec.persistence == to.spec.persistence
    ensures Reconcile(from, to, c).value.spec.ephemeral == to.spec.ephemeral
    ensures !ReconcileStorage(from.spec, to.spec, c).changed
  {
  }

  /** Whenever `from`'s discriminant is one of the two storage types, the live object
      ends with at most one variant, the one its discriminant names, whatever both
      sides held before. */
  lemma ReconcileEstablishesSingleVariant(from: Cluster, to: Cluster, c: Collaborators)
    requires from.spec.storageType == PersistenceStorage || from.spec.storageType == EphemeralStorage
    ensures SingleStorageVariant(Reconcile(from, to, c).value.spec)
  {
  }

  /** The live object with a different image tag, affinity and cluster domain. */
  function WithGuardedFields(to: Cluster, tag: string, affinity: Option<Affinity>, domain: string): (r: Cluster)
    ensures r.spec.image.tag == tag && r.spec.pod.affinity == affinity && r.spec.kubernetesClusterDomain == domain
  {
    to.(spec := to.spec.(image := to.spec.image.(tag := tag),
                         pod := to.spec.pod.(affinity := affinity),
                         kubernetesClusterDomain := domain))
  }

  /** An empty desired tag is still written onto the live object, but whatever tag the
      live object held has no effect on the result or on whether an update is asked for. */
  lemma ReconcileEmptyTagIsSilent(from: Cluster, to: Cluster, c: Collaborators, tag: string)
    requires from.spec.image.tag == ""
    ensures Reconcile(from, to, c).value.spec.image.tag == ""
    ensures var to' := to.(spec := to.spec.(image := to.spec.image.(tag := tag)));
            Reconcile(from, to', c) == Reconcile(from, to, c)
  {
  }

  /** A non-empty desired tag that differs from the live one asks for an update. */
  lemma ReconcileTagDifferenceFlagged(from: Cluster, to: Cluster, c: Collaborators)
    requires from.spec.image.tag != "" && to.spec.image.tag != from.spec.image.tag
    ensures Reconcile(from, to, c).changed
    ensures Reconcile(from, to, c).value.spec.image.tag == from.spec.image.tag
  {
  }

  /** An absent desired affinity is still written onto the live object (clearing it),
      but whatever affinity the live object held has no effect on the result or on
      whether an update is asked for. */
  lemma ReconcileNilAffinityIsSilent(from: Cluster, to: Cluster, c: Collaborators, affinity: Option<Affinity>)
    requires from.spec.pod.affinity.None?
    ensures Reconcile(from, to, c).value.spec.pod.affinity.None?
    ensures var to' := to.(spec := to.spec.(pod := to.spec.pod.(affinity := affinity)));
            Reconcile(from, to', c) == Reconcile(from, to, c)
  {
  }

  /** A desired affinity that differs from the live one asks for an update. */
  lemma ReconcileAffinityDifferenceFlagged(from: Cluster, to: Cluster, c: Collaborators)
    requires from.spec.pod.affinity.Some? && to.spec.pod.affinity != from.spec.pod.affinity
    ensures Reconcile(from, to, c).changed
    ensures Reconcile(from, to, c).value.spec.pod.affinity == from.spec.pod.affinity
  {
  }

  /** An empty desired cluster domain is still written onto the live object, but
      whatever domain the live object held has no effect on the result or on whether
      an update is asked for. */
  lemma ReconcileEmptyDomainIsSilent(from: Cluster, to: Cluster, c: Collaborators, domain: string)
    requires from.spec.kubernetesClusterDomain == ""
    ensures Reconcile(from, to, c).value.spec.kubernetesClusterDomain == ""
    ensures var to' := to.(spec := to.spec.(kubernetesClusterDomain := domain));
            Reconcile(from, to', c) == Reconcile(from, to, c)
  {
  }

  /** A non-empty desired cluster domain that differs from the live one asks for an update. */
  lemma ReconcileDomainDifferenceFlagged(from: Cluster, to: Cluster, c: Collaborators)
    requires from.spec.kubernetesClusterDomain != "" && to.spec.kubernetesClusterDomain != from.spec.kubernetesClusterDomain
    ensures Reconcile(from, to, c).changed
    ensures Reconcile(from, to, c).value.spec.kubernetesClusterDomain == from.spec.kubernetesClusterDomain
  {
  }

  /** An empty desired service account leaves the operator's default in place without
      asking for an update; any other difference is copied and asks for one. */
  lemma ReconcileServiceAccount(from: Cluster, to: Cluster, c: Collaborators)
    ensures from.spec.pod.serviceAccountName == "" && to.spec.pod.serviceAccountName == DefaultServiceAccountName ==>
              && Reconcile(from, to, c).value.spec.pod.serviceAccountName == DefaultServiceAccountName
              && var to' := to.(spec := to.spec.(pod := to.spec.pod.(serviceAccountName := "")));
                 Reconcile(from, to, c).changed == Reconcile(from, to', c).changed
    ensures !(from.spec.pod.serviceAccountName == "" && to.spec.pod.serviceAccountName == DefaultServiceAccountName) ==>
              && Reconcile(from, to, c).value.spec.pod.serviceAccountName == from.spec.pod.serviceAccountName
              && (to.spec.pod.serviceAccountName != from.spec.pod.serviceAccountName ==> Reconcile(from, to, c).changed)
  {
  }

  /** When no update is asked for and the helpers are honest, the live object is left
      as it was except for the three fields whose differences are taken silently. */
  lemma ReconcileNoUpdateOnlyMovesGuardedFields(from: Cluster, to: Cluster, c: Collaborators)
    requires Honest(c)
    requires !Reconcile(from, to, c).changed
    ensures Reconcile(from, to, c).value
            == WithGuardedFields(to, from.spec.image.tag, from.spec.pod.affinity, from.spec.kubernetesClusterDomain)
  {
  }

  /** A live object that already agrees with `from` (ports aside) is a fixpoint when the
      helpers are quiescent and `from` holds at most its own storage variant. */
  lemma ReconcileFixpoint(from: Cluster, to: Cluster, c: Collaborators)
    requires Quiescent(c)
    requires SingleStorageVariant(from.spec)
    requires to.meta == from.meta && to.spec == from.spec.(ports := to.spec.ports)
    ensures Reconcile(from, to, c) == Copied(to, false)
  {
  }

  /** Reconciling a second time toward the same `from` asks for no update, when the
      helpers are quiescent and settle. */
  lemma ReconcileIdempotent(from: Cluster, to: Cluster, c: Collaborators)
    requires Quiescent(c) && Settles(c)
    ensures !Reconcile(from, Reconcile(from, to, c).value, c).changed
  {
  }

  /** A freshly generated cluster, reconciled onto a live object that already holds it,
      asks for no update when the helpers are quiescent. */
  lemma GeneratedClusterIsFixpoint(cloud: SolrCloud, zk: ZookeeperSpec, c: Collaborators)
    requires zk.replicas.Some?
    requires Quiescent(c)
    ensures var g := ZkGenerate.GenerateZookeeperCluster(cloud, zk);
            Reconcile(g, g, c) == Copied(g, false)
  {
    var g := ZkGenerate.GenerateZookeeperCluster(cloud, zk);
    ReconcileFixpoint(g, g, c);
  }
}
