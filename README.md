# LINSTOR scheduler admission: the pod mutator

This is a Dafny model of the mutating admission webhook of
linstor-scheduler-extender. For every admitted object, the webhook decides whether the
pod must be handed to the storage-aware scheduler (`linstor` by default)
instead of the cluster's default scheduler. The pod is handed over when one of
its volumes is provisioned by the configured CSI driver (`linstor.csi.linbit.com` by
default). The model finds the provisioner of each volume in this order:

1. an inline CSI source;
2. the claim's provisioner annotations;
3. the claim's StorageClass;
4. the CSI driver of the PersistentVolume the claim is bound to.

The model has three files:

- `cluster.dfy` (module `Cluster`) holds the objects the mutator reads and the read-only cluster object store.
  - `Pod` is a class whose `schedulerName` field the mutator overwrites in place.
  - `Volume`, `Claim`, `StorageClass` and `PersistentVolume` are datatypes.
  - Each of the store's three lookups answers `Found(obj)`, `NotFound` or `Failure(error)`.
  - `Request` names one lookup, so the model can say which lookups a run makes.
  - The Kubernetes client refuses some names before sending anything: `""`, `"."`, `".."`, and any name containing `/` or `%` (`ValidName`). A lookup of such a name answers with an error that is not NotFound.
  - A claim stored in the cluster refers only to valid storage class and volume names, because the API server validates them when the claim is stored (`ClaimsValid`).
- `admission.dfy` (module `Admission`) holds the configuration, the annotation keys and the decision itself.
  - The pure specification is `ClaimNames` (the claims of the pod's volumes, in order), `Discover` (one claim), `Resolve` (all claims) and `Decision` (the pod).
  - `DiscoverRequests`, `ResolveRequests` and `DecisionRequests` give the lookups that `Discover`, `Resolve` and `Decision` make, in order. `ClaimNames` makes no lookup.
  - The mutator itself is written imperatively, as the source writes it:
    - `Mutate` is the type switch over the admitted object.
    - `MutatePod` holds the early exit and the volume loop, and assigns the scheduler name.
    - `ResolveClaims` is the claim loop.
    - `DiscoverProvisioner` is the body of the claim loop: it overwrites a local `discoveredProvisioner` step by step.
  - Each of these methods is proved against the pure specification.
- `properties.dfy` (module `AdmissionProperties`) holds lemmas about the specification.
  - They cover the early exits, the precedence rules, the fallbacks, claim order, error handling and idempotence.
  - It also holds two worked examples and a client that calls `Mutate` twice.
  - In both examples, a pod in namespace `default` has one volume, which refers to claim `data-0`. The claim has no annotations, names the storage class `fast` of a foreign provisioner, and is bound to volume `pvc-123`.
  - In the first example `pvc-123` is a CSI volume of the driver, and the pod is assigned. In the second `pvc-123` is not found, and the pod is kept as it is, without error.

Four behaviours of the code deserve stating plainly:

- **The beta annotation key wins.** The stable annotation key is read first and the beta key after it, so when both are present the beta key's value is used. The stable value is read and then overwritten, so it has no effect, even when the beta value is "" (`BetaHidesStable`, `EmptyAnnotationFallsThrough`).
- **The storage-class asymmetry is observable.** The provisioner of a storage class is recorded only when it is the configured driver. A foreign class's provisioner is dropped, so the bound volume is still consulted (`ForeignClassFallsThrough`). If the class's provisioner were recorded whatever it is, the claim of the first example (`ExampleBoundVolumeMatches`) would not match.
- **A claim that is not found reads as the empty claim.** Its lookup returns the zero object together with NotFound, and the code dereferences it without a nil check. The same holds for a storage class or volume that is not found: the zero storage class has provisioner `""` and the zero volume has no CSI source.
- **A claim name the client refuses is an error.** The webhook runs before the API server validates the pod, so a claim volume may name `""`, `"a/b"` or another name the client refuses. Such a name is collected like any other. Its lookup fails with an error that is not NotFound, and the mutator returns that error (`InvalidClaimNameFails`).

## Model

| member | source | states |
|---|---|---|
| `Admission.Mutate` | cmd/linstor-scheduler-admission/linstor-scheduler-admission.go:56-127 | an object that is not a pod gets an empty result and no lookup; for a pod, the result, the new scheduler name and the lookups made are those of `Decision`, and the volumes are unchanged |
| `Admission.MutatePod` | cmd/linstor-scheduler-admission/linstor-scheduler-admission.go:62-126 | only `schedulerName` may change (frame `pod`schedulerName`); it becomes the configured scheduler exactly when the verdict is Assign and otherwise keeps its old value (also on error); result and lookups as `Decision` specifies |
| `Admission.ResolveClaims` | cmd/linstor-scheduler-admission/linstor-scheduler-admission.go:84-124 | the claim loop returns the verdict of `Resolve` (first match assigns, first failed lookup fails, otherwise keep) and makes exactly the lookups of `ResolveRequests`, in order |
| `Admission.DiscoverProvisioner` | cmd/linstor-scheduler-admission/linstor-scheduler-admission.go:85-118 | the step-by-step overwrite of `discoveredProvisioner` yields `Discover`'s result and makes exactly `DiscoverRequests`'s lookups |
| `AdmissionProperties.ClaimNamesAppend` | cmd/linstor-scheduler-admission/linstor-scheduler-admission.go:67-81 | collecting claims preserves volume order: the claims of `a + b` are those of `a` followed by those of `b` |
| `AdmissionProperties.ClaimNamesExact` | cmd/linstor-scheduler-admission/linstor-scheduler-admission.go:76-80 | a name is collected if and only if some volume has a claim source with that name |
| `AdmissionProperties.ExplicitSchedulerRespected` | cmd/linstor-scheduler-admission/linstor-scheduler-admission.go:62-65 | a scheduler name other than "" and "default-scheduler" is skipped with no lookup, whatever the volumes |
| `AdmissionProperties.InlineWins` | cmd/linstor-scheduler-admission/linstor-scheduler-admission.go:70-75 | an inline CSI volume of the driver anywhere among the volumes assigns the scheduler with no lookup, whatever the other volumes are |
| `AdmissionProperties.AnnotationDecides` | cmd/linstor-scheduler-admission/linstor-scheduler-admission.go:90-98 | a non-empty annotated provisioner is the discovered one (the beta key's when present), and neither the storage class nor the volume is looked up |
| `AdmissionProperties.BetaHidesStable` | cmd/linstor-scheduler-admission/linstor-scheduler-admission.go:91-98 | when the beta key is present, giving the stable key any value or removing it changes neither the discovered provisioner nor the lookups made |
| `AdmissionProperties.DiscoverSeesOnlyAnnotatedProvisioner` | cmd/linstor-scheduler-admission/linstor-scheduler-admission.go:90-118 | two claims that give the same annotated provisioner and name the same class and volume are discovered alike, with the same lookups: the other annotations play no part |
| `AdmissionProperties.EmptyAnnotationFallsThrough` | cmd/linstor-scheduler-admission/linstor-scheduler-admission.go:91-100 | an annotated provisioner of "", including a beta key present with value "", counts as none: discovery and lookups are those of the same claim without annotations |
| `AdmissionProperties.ClassLookedUpIff` | cmd/linstor-scheduler-admission/linstor-scheduler-admission.go:86-101 | storage class n is looked up if and only if the claim lookup did not fail, the annotations gave no provisioner, the claim names a non-empty class, and that class is n |
| `AdmissionProperties.VolumeLookedUpIff` | cmd/linstor-scheduler-admission/linstor-scheduler-admission.go:86-111 | volume n is looked up if and only if the claim lookup did not fail, neither annotations nor storage class gave a provisioner, the claim is bound to a non-empty volume name, and that name is n |
| `AdmissionProperties.ForeignAnnotationNeverMatches` | cmd/linstor-scheduler-admission/linstor-scheduler-admission.go:91-120 | a claim annotated with a foreign provisioner never matches, whatever its storage class and bound volume are |
| `AdmissionProperties.StorageClassDecides` | cmd/linstor-scheduler-admission/linstor-scheduler-admission.go:99-108 | with no annotated provisioner, a storage class of a non-empty driver makes the claim match, and the volume is not looked up |
| `AdmissionProperties.ForeignClassFallsThrough` | cmd/linstor-scheduler-admission/linstor-scheduler-admission.go:100-118 | a storage class of a foreign provisioner, or one not found, contributes nothing: discovery is the volume step from "", and the volume is looked up exactly when the claim names one |
| `AdmissionProperties.VolumeDecides` | cmd/linstor-scheduler-admission/linstor-scheduler-admission.go:109-120 | when annotations and storage class gave nothing, the bound volume's CSI driver is discovered, whatever it is, and the claim matches if and only if it is the driver |
| `AdmissionProperties.MissingClaimDiscoversNothing` | cmd/linstor-scheduler-admission/linstor-scheduler-admission.go:86-110 | a claim that is not found discovers nothing and makes only its own lookup |
| `AdmissionProperties.ResolveAssigns` | cmd/linstor-scheduler-admission/linstor-scheduler-admission.go:84-124 | the claims assign the scheduler if and only if some claim matches and every earlier claim resolves without error and does not match |
| `AdmissionProperties.ResolveKeeps` | cmd/linstor-scheduler-admission/linstor-scheduler-admission.go:84-126 | the pod is kept as it is if and only if every claim resolves without error and none matches |
| `AdmissionProperties.ResolveFails` | cmd/linstor-scheduler-admission/linstor-scheduler-admission.go:84-124 | the claims fail with error e if and only if some claim aborts with e and every earlier claim resolves without error and does not match |
| `Admission.ResolveAfterPassed` | cmd/linstor-scheduler-admission/linstor-scheduler-admission.go:84-123 | once the first j claims resolved without error or match, the verdict is that of the remaining claims, and the lookups are those of the first j claims followed by those of the rest |
| `AdmissionProperties.StopsAtFirstMatch` | cmd/linstor-scheduler-admission/linstor-scheduler-admission.go:119-123 | when claim k is the first to match, the scheduler is assigned, and the lookups are those of the claims before k followed by claim k's; no later claim is looked up |
| `AdmissionProperties.DiscoverFailsOnlyOnFailedLookup` | cmd/linstor-scheduler-admission/linstor-scheduler-admission.go:86-114 | one claim aborts exactly when its last lookup was answered with an error other than NotFound, and with that error; every earlier lookup was answered without one |
| `AdmissionProperties.ResolveFailsOnlyOnFailedLookup` | cmd/linstor-scheduler-admission/linstor-scheduler-admission.go:84-124 | the claims fail exactly when the last lookup made failed, with its error, and every earlier lookup succeeded or was NotFound |
| `AdmissionProperties.DecisionFailsOnlyOnFailedLookup` | cmd/linstor-scheduler-admission/linstor-scheduler-admission.go:62-126 | the whole decision fails exactly when its last lookup failed, with that lookup's error |
| `AdmissionProperties.DiscoverNamesValid` | cmd/linstor-scheduler-admission/linstor-scheduler-admission.go:86-111 | a claim of a valid name, in a store of valid claims, is looked up with valid names only: the class and volume lookups use the stored claim's names and only when they are non-empty |
| `AdmissionProperties.RequestNamesValid` | cmd/linstor-scheduler-admission/linstor-scheduler-admission.go:84-124 | claims of valid names, in a store of valid claims, make lookups of valid names only |
| `AdmissionProperties.NotFoundNeverFails` | cmd/linstor-scheduler-admission/linstor-scheduler-admission.go:80-114 | in a store whose answers are only objects or NotFound and whose claims are valid, a pod whose claim volumes all name a claim validly makes no decision fail |
| `AdmissionProperties.InvalidClaimNameFails` | cmd/linstor-scheduler-admission/linstor-scheduler-admission.go:80-89 | a claim name the client refuses ("", ".", "..", or one with '/' or '%') aborts with the client's error, and a pod whose only volume names it fails with that error |
| `AdmissionProperties.Idempotent` | cmd/linstor-scheduler-admission/linstor-scheduler-admission.go:63-123 | if the configured scheduler is neither "" nor "default-scheduler", deciding again on a pod the mutator assigned is a skip with no lookup, against any cluster state; any other verdict leaves the scheduler name unchanged |
| `AdmissionProperties.ExampleBoundVolumeMatches` | cmd/linstor-scheduler-admission/linstor-scheduler-admission.go:84-124 | a claim with no annotations and a foreign storage class, bound to a CSI volume of the driver, assigns the scheduler after a claim, class and volume lookup |
| `AdmissionProperties.ExampleMissingVolumeKeeps` | cmd/linstor-scheduler-admission/linstor-scheduler-admission.go:84-126 | the same claim bound to a volume that is not found keeps the pod as it is, without error |

## Left out

- `initFlags` (TLS file flags, flag parsing): `driverName` and `schedulerName` are a `Config` value, and `DefaultConfig` holds the flag defaults.
- Webhook construction, the HTTP handler, TLS serving, `main` and `GetK8sSTDClients`: these are transport and process wiring around the mutator.
- The scheduler-extender command: it is wiring around an external extender framework, with an event broadcaster, signal handling and a controller manager.
- The Kubernetes client calls, `context` deadlines and cancellation: the store is a pure lookup answering Found, NotFound or Failure, and a deadline is one more Failure.
- Logging: the mutator itself logs nothing, and the webhook's logging is process wiring. The model adds something the source does not have: the methods return the lookups they make, as a sequence, so properties can say which lookups a run makes.
- The `MutatorResult` envelope and JSON patch: the result is an empty result, the pod as mutated object, or an error. Whether the pod changed is read from its `schedulerName` field.
- `Admission.MutatePod`: the source assigns the scheduler name inside the claim loop and then leaves the loop. The model's claim loop (`ResolveClaims`) returns the verdict, and `MutatePod` makes the one assignment afterwards. No lookup happens between the two points, so the result, the final state and the lookups are the same.
- `Cluster.NameError`: the client's message for an invalid name also quotes the name and lists the reasons. The model keeps only the fixed prefix, "invalid resource name".
- The namespace of the request is taken to be valid: the API server admits pods only into existing namespaces, and the client's namespace check is not modelled.
- Pod fields other than the scheduler name and the volumes: only these two are modelled, so the claim that no other field changes is a frame on the modelled fields.
