# Solr operator: Zookeeper cluster helpers

This project models the three Zookeeper helpers of the Solr operator
(`controllers/util/zk_util.go`) in Dafny and proves properties about them.

- **Generation** (`ZkGenerate`): builds the ZookeeperCluster that a SolrCloud
  asks for. It copies the parent's Zookeeper options and labels the object as
  Zookeeper. It exposes the client, quorum and leader-election ports. It picks a
  storage type by a three-step priority and fills at most the matching storage
  variant. It takes the cluster domain from the parent and appends the parent's
  singular image-pull secret to the pod's list.
- **Reconciliation** (`ZkReconcile`, `ZkReconcileProperties`): copies the owned
  fields of a desired cluster (`from`) onto the live one (`to`), field by field,
  and reports whether the live object must be written back. `ZookeeperCluster`
  is a class whose `meta` and `spec` fields the method
  `CopyZookeeperClusterFields` updates in place. The method is proved equal to
  the declarative function `Reconcile`, and the reconciler's policies are
  lemmas about `Reconcile`:
  - always-synced fields;
  - ports never touched;
  - the storage union;
  - the guarded tag, affinity and domain;
  - the service-account default;
  - "no update" soundness;
  - fixpoint and idempotence.
- **ACL environment** (`ZkAcl`): builds the environment variables that hand
  Zookeeper digest credentials to Solr. For each given ACL, two secret-backed
  variables are added, then one variable carrying the provider settings and the
  digest system properties. The properties can be read back from that
  variable's value, and they name exactly the given ACLs.

Files: `zk_types.dfy` (records shared by all three), `zk_generate.dfy`,
`zk_reconcile.dfy`, `zk_reconcile_properties.dfy`, `zk_acl.dfy`.

The reconciler depends on three helpers whose code lies outside this model:
`CopyLabelsAndAnnotations`, `CopyResources` and `CopyVolumeResources`. They are
function-valued parameters (`ZkReconcile.Collaborators`), and each returns the
new `to` value and whether it changed. The lemmas that need something of them
say what, as predicates:

- `Quiescent`: equal inputs mean no change.
- `Settles`: a second copy from the same source changes nothing.
- `Honest`: "no change" leaves the value as it was.

The code differs from a plain reading of the design in one place. An empty
desired image tag and an empty desired cluster domain do not ask for an update,
yet they are still written onto the live object, since the assignment follows
the guard unconditionally (zk_util.go:171 and :335). The model follows the
code, and `ReconcileEmptyTagIsSilent` and `ReconcileEmptyDomainIsSilent` prove
both halves.

## Model

| member | source | states |
|---|---|---|
| ZkGenerate.StorageTypeFor | controllers/util/zk_util.go:98-111 | the storage type is persistence if the parent gives persistence, else ephemeral if it gives ephemeral, else persistence iff the SolrCloud has persistent storage; never anything else |
| ZkGenerate.ImagePullSecretsFor | controllers/util/zk_util.go:130-136 | with a non-empty singular pull secret the list is the pod's list followed by exactly that one secret (a one-element list when the pod's is empty); otherwise the pod's list unchanged |
| ZkGenerate.MergeLabelsOrAnnotations | controllers/util/zk_util.go:37-40 | the merged labels have the keys of both maps; the parent's Zookeeper labels keep their values and the shared labels fill in only missing keys |
| ZkGenerate.GenerateZookeeperCluster | controllers/util/zk_util.go:33-136 | name and namespace from the SolrCloud; the technology label set; the three fixed ports 2181/2888/3888; image, replicas, pod overrides, services, config, containers, volumes, probes and disruption budget copied; storage type by priority with at most the matching variant filled (none when the parent gives neither); cluster domain from the parent; pull secrets as `ImagePullSecretsFor` |
| ZkReconcile.SyncAlways | controllers/util/zk_util.go:149-153 | the always-sync policy: the field ends with the desired value and counts as changed exactly when the live value differed |
| ZkReconcile.CopyZookeeperClusterFields | controllers/util/zk_util.go:145-398 | after the in-place copy, the live object and the returned flag are exactly those of `Reconcile` applied to the objects as they were on entry |
| ZkReconcile.CopyImageFields | controllers/util/zk_util.go:161-177 | repository and pull policy always synced; the tag always taken, its difference counted only for a non-empty desired tag; nothing else on the object changes |
| ZkReconcile.CopyStorageFields | controllers/util/zk_util.go:179-256 | the discriminant is synced and the storage union rebuilt as `ReconcileStorage` describes; the flag is raised by a discriminant change or any clearing, adoption or merged difference |
| ZkReconcile.CopyPersistenceFields | controllers/util/zk_util.go:196-220 | merging into an existing persistence variant yields `MergePersistence`: claim resources through the helper, access modes, storage class, reclaim policy and annotations synced, other claim fields kept |
| ZkReconcile.CopyPodFields | controllers/util/zk_util.go:258-329 | the live pod policy becomes `ReconcilePod` of the desired and old pod policies, and nothing else on the object changes |
| ZkReconcile.CopyPodSchedulingFields | controllers/util/zk_util.go:258-293 | resources through the helper; env, tolerations and node selector synced; affinity always taken but counted only when one is desired; the service account copied and counted only when it differs and is not an empty desired name against the live "default" |
| ZkReconcile.CopyPodRemainingFields | controllers/util/zk_util.go:295-329 | pod labels, annotations, security context, grace period, pull secrets and topology constraints all take the desired values; the flag is raised iff any of them differed |
| ZkReconcile.CopyRemainingFields | controllers/util/zk_util.go:331-395 | the cluster domain is always taken but counted only when the desired one is non-empty; probes, config, containers, volumes, services and disruption budget synced and counted when they differ |
| ZkReconcileProperties.ReconcileAlwaysSyncs | controllers/util/zk_util.go:149-395 | every always-synced field of the result equals `from`'s, and a difference in any of them makes the result ask for an update |
| ZkReconcileProperties.ReconcileLeavesPortsUntouched | controllers/util/zk_util.go:145-398 | the ports stay as the live object had them, and changing the live ports changes neither the rest of the result nor the flag |
| ZkReconcileProperties.ReconcilePersistenceUnion | controllers/util/zk_util.go:184-226 | with a persistence discriminant the ephemeral variant ends cleared; the persistence variant is present iff `from` has one, and is adopted whole (flagged) when the live object had none, else merged keeping the live claim's other fields; clearing either variant is flagged |
| ZkReconcileProperties.ReconcileEphemeralUnion | controllers/util/zk_util.go:227-256 | with an ephemeral discriminant the persistence variant ends cleared and the ephemeral variant equals `from`'s; a live persistence variant or a different live ephemeral variant is flagged |
| ZkReconcileProperties.ReconcileOtherStorageTypeKeepsVariants | controllers/util/zk_util.go:179-256 | with any other discriminant both variants stay as the live object had them and the storage union raises no flag |
| ZkReconcileProperties.ReconcileEstablishesSingleVariant | controllers/util/zk_util.go:179-256 | whenever `from`'s discriminant is persistence or ephemeral, the result holds at most one variant, the one the discriminant names |
| ZkReconcileProperties.ReconcileEmptyTagIsSilent | controllers/util/zk_util.go:167-171 | an empty desired tag is written onto the result, and the tag the live object held affects neither the result nor the flag |
| ZkReconcileProperties.ReconcileTagDifferenceFlagged | controllers/util/zk_util.go:167-171 | a non-empty desired tag that differs from the live one asks for an update and is taken |
| ZkReconcileProperties.ReconcileNilAffinityIsSilent | controllers/util/zk_util.go:280-284 | an absent desired affinity is written onto the result (clearing the live one), and the live affinity affects neither the result nor the flag |
| ZkReconcileProperties.ReconcileAffinityDifferenceFlagged | controllers/util/zk_util.go:280-284 | a desired affinity that differs from the live one asks for an update and is taken |
| ZkReconcileProperties.ReconcileEmptyDomainIsSilent | controllers/util/zk_util.go:331-335 | an empty desired cluster domain is written onto the result, and the live domain affects neither the result nor the flag |
| ZkReconcileProperties.ReconcileDomainDifferenceFlagged | controllers/util/zk_util.go:331-335 | a non-empty desired cluster domain that differs from the live one asks for an update and is taken |
| ZkReconcileProperties.ReconcileServiceAccount | controllers/util/zk_util.go:289-293 | an empty desired name against the live "default" leaves "default" and flags nothing for that field; in every other case the desired name is taken and a difference is flagged |
| ZkReconcileProperties.ReconcileNoUpdateOnlyMovesGuardedFields | controllers/util/zk_util.go:143-145 | with honest helpers, when no update is asked for the result equals the live object except for the tag, affinity and domain, which take `from`'s values |
| ZkReconcileProperties.ReconcileFixpoint | controllers/util/zk_util.go:143-145 | with quiescent helpers, a live object equal to `from` (ports aside) where `from` holds at most its own storage variant is returned unchanged with no update asked for |
| ZkReconcileProperties.ReconcileIdempotent | controllers/util/zk_util.go:145-398 | with quiescent and settling helpers, reconciling the result again toward the same `from` asks for no update |
| ZkReconcileProperties.GeneratedClusterIsFixpoint | controllers/util/zk_util.go:33-136 | a freshly generated cluster reconciled onto itself is a no-op with quiescent helpers |
| ZkAcl.AddACLsToEnv | controllers/util/zk_util.go:402-471 | no ACL gives (false, no variables); otherwise true with two secret-backed variables per given ACL (all-permissions first, username before password, every secret reference not optional) and a last `SOLR_ZK_CREDS_AND_ACLS` variable of the provider settings followed by the space-joined digest properties |
| ZkAcl.SplitJoin | controllers/util/zk_util.go:468 | splitting the space-joined digest properties on the separator gives back the properties when none contains a space |
| ZkAcl.DigestPropertiesHaveNoSpaces | controllers/util/zk_util.go:435 | none of the four digest properties contains a space |
| ZkAcl.DigestPropertiesPresence | controllers/util/zk_util.go:435-463 | the read-only digest properties are present iff a read-only ACL is given, the all-permissions ones iff an all-permissions ACL is given |
| ZkAcl.CredsAndAclsProperties | controllers/util/zk_util.go:465-469 | the last variable's value starts with the provider settings, and its remaining space-separated words are exactly the digest properties |
| ZkAcl.CredsAndAclsNameExactlyTheGivenACLs | controllers/util/zk_util.go:463-469 | read back from the last variable, the read-only tokens are present iff a read-only ACL is given, and the all-permissions tokens iff an all-permissions ACL is given |

## Left out

- `WithDefaults` (zk_util.go:139) is the zookeeper operator's defaulting hook, and its code is not part of this model. `GenerateZookeeperCluster` returns the cluster before that step.
- Logging (`logger.WithValues`, `logger.Info`) has no bearing on the results. This includes the log line at zk_util.go:386, which names the wrong field.
- `SharedLabelsWith`, `GetLabels` and `ProvidedZookeeperName` are SolrCloud accessors. Their results are fields of `SolrCloud` (`sharedLabels`, `providedZookeeperName`).
- `MergeLabelsOrAnnotations`: its code is not part of this model. It is modelled as a union in which the first argument's keys win, and the value of `ZookeeperTechnologyLabel` is taken to be "zookeeper".
- `CopyLabelsAndAnnotations`, `CopyResources` and `CopyVolumeResources`: their code is not part of this model. They are function-valued parameters.
- `DeepEqualWithNils` is modelled as `==`. Nil and empty slices and maps are one value here.
- Kubernetes API values (affinity, tolerations, resource requirements, containers, quantities and so on) are opaque values compared by equality. No quantity arithmetic is modelled.
- Go aliasing is not modelled:
  - the labels map shared between the object and its spec (zk_util.go:37);
  - an `append` that may write into the parent's backing array (zk_util.go:132);
  - the persistence or ephemeral pointer shared with `from` after adoption (zk_util.go:194, :237).
  Every value here is copied.
- CopyZookeeperClusterFields reads `from` once on entry. This is equivalent to reading it field by field, even when `from` and `to` are the same object, because no step reads a field that an earlier step wrote.
- CopyPodFields updates a local copy of the pod policy and stores it once, where the source writes each pod field of the live object in turn. The final state is the same.
- ZkReconcileProperties.ReconcileFixpoint requires that `from` holds at most the variant its discriminant names. When `from` holds both, the code clears one and asks for an update even on a live object equal to `from`. This is why the requirement is there. Generated clusters always meet it (`GeneratedClusterIsFixpoint`).
- ZkAcl: the Java class names inside the provider settings are one constant, `ProviderSettings`. Its content is not analysed.
