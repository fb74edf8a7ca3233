/** The pod mutator of the LINSTOR scheduler admission webhook: it decides
    whether a pod must be handed to the storage-aware scheduler, by matching
    the provisioner of each of the pod's volumes against the configured CSI
    driver.

    The pure functions below (ClaimNames, Discover, Resolve, Decision and
    their request traces) specify the decision; MutatePod and Mutate are the
    mutator itself, written as the source writes it, and proved against them. */
module Admission {
  import opened Cluster

  /** The annotation keys a claim may record its provisioner under. */
  const BetaProvisionerKey := "volume.beta.kubernetes.io/storage-provisioner"
  const ProvisionerKey := "volume.kubernetes.io/storage-provisioner"

  /** The name the cluster's default scheduler answers to. */
  const DefaultScheduler := "default-scheduler"

  /** The mutator's configuration: the CSI driver to match and the scheduler
      to assign when it matches. */
  datatype Config = Config(driverName: string, schedulerName: string)

  /** The configuration the command-line flags default to. */
  const DefaultConfig := Config("linstor.csi.linbit.com", "linstor")

  /** What the mutator hands back: an empty result, the (possibly unchanged)
      pod as the mutated object, or an error with an empty result. */
  datatype MutatorResult = EmptyResult | MutatedPod | Failed(error: string)

  // ---------------------------------------------------------------------------
  // Specification: the pod's volumes

  /** A pod whose scheduler name is set to anything but the default one. */
  predicate HasExplicitScheduler(schedulerName: string) {
    schedulerName != "" && schedulerName != DefaultScheduler
  }

  /** A volume with an inline CSI source of the given driver. */
  predicate IsInlineOf(v: Volume, driver: string) {
    v.csi == Some(driver)
  }

  predicate HasInlineDriver(volumes: seq<Volume>, driver: string) {
    exists i | 0 <= i < |volumes| :: IsInlineOf(volumes[i], driver)
  }

  /** The claim names of the claim volumes, in volume order. */
  function ClaimNames(volumes: seq<Volume>): seq<string> {
    if volumes == [] then []
    else
      var last := volumes[|volumes| - 1];
      ClaimNames(volumes[..|volumes| - 1]) + (if last.claim.Some? then [last.claim.value] else [])
  }

  // ---------------------------------------------------------------------------
  // Specification: discovering the provisioner of one claim

  /** The outcome of resolving one claim: a discovered provisioner ("" when
      nothing was discovered) or the error of a failed lookup. */
  datatype Discovery = Discovered(provisioner: string) | Aborted(error: string)

  /** The provisioner recorded in a claim's annotations; the beta key is read
      after the stable one, so its value wins when both are present. */
  function AnnotatedProvisioner(annotations: map<string, string>): string {
    var fromStable := if ProvisionerKey in annotations then annotations[ProvisionerKey] else "";
    if BetaProvisionerKey in annotations then annotations[BetaProvisionerKey] else fromStable
  }

  /** The storage class the claim names, if it names a non-empty one. */
  predicate NamesClass(pvc: Claim) {
    pvc.storageClassName.Some? && pvc.storageClassName.value != ""
  }

  /** The storage class step: consulted only while nothing is discovered, and
      contributing only a provisioner equal to the driver. */
  function FromStorageClass(cfg: Config, store: Store, pvc: Claim, current: string): Discovery {
    if current == "" && NamesClass(pvc) then
      var r := store.GetStorageClass(pvc.storageClassName.value);
      if r.Failure? then Aborted(r.error)
      else
        var sc := r.OrElse(EmptyStorageClass);
        if sc.provisioner == cfg.driverName then Discovered(sc.provisioner) else Discovered(current)
    else Discovered(current)
  }

  /** The volume step: consulted only while nothing is discovered, and
      contributing the CSI driver of the bound volume, whatever it is. */
  function FromVolume(store: Store, pvc: Claim, current: string): Discovery {
    if current == "" && pvc.volumeName != "" then
      var r := store.GetVolume(pvc.volumeName);
      if r.Failure? then Aborted(r.error)
      else
        var pv := r.OrElse(EmptyVolume);
        if pv.csi.Some? then Discovered(pv.csi.value) else Discovered(current)
    else Discovered(current)
  }

  /** The provisioner discovered for claim `name` in `namespace`: annotations,
      then the storage class, then the bound volume.  A claim that is not
      found is read as the empty claim. */
  function Discover(cfg: Config, store: Store, namespace: string, name: string): Discovery {
    var r := store.GetClaim(namespace, name);
    if r.Failure? then Aborted(r.error)
    else
      var pvc := r.OrElse(EmptyClaim);
      match FromStorageClass(cfg, store, pvc, AnnotatedProvisioner(pvc.annotations))
      case Aborted(e) => Aborted(e)
      case Discovered(p) => FromVolume(store, pvc, p)
  }

  /** The requests Discover makes, in order. */
  function DiscoverRequests(cfg: Config, store: Store, namespace: string, name: string): seq<Request> {
    var r := store.GetClaim(namespace, name);
    var head := [GetClaimRequest(namespace, name)];
    if r.Failure? then head
    else
      var pvc := r.OrElse(EmptyClaim);
      var fromAnnotations := AnnotatedProvisioner(pvc.annotations);
      var classStep := if fromAnnotations == "" && NamesClass(pvc)
        then [GetStorageClassRequest(pvc.storageClassName.value)] else [];
      match FromStorageClass(cfg, store, pvc, fromAnnotations)
      case Aborted(_) => head + classStep
      case Discovered(p) =>
        head + classStep + (if p == "" && pvc.volumeName != "" then [GetVolumeRequest(pvc.volumeName)] else [])
  }

  // ---------------------------------------------------------------------------
  // Specification: the decision over all claims and over the whole pod

  /** The verdict for a pod: skipped (explicit scheduler), assigned the
      storage scheduler, kept as it is, or failed with a lookup error. */
  datatype Verdict = Skip | Assign | Keep | Fail(error: string)

  /** Claim `name` matches: its discovered provisioner is the driver. */
  predicate Matches(cfg: Config, store: Store, namespace: string, name: string) {
    Discover(cfg, store, namespace, name) == Discovered(cfg.driverName)
  }

  /** Claim `name` resolves without error and does not match. */
  predicate Passes(cfg: Config, store: Store, namespace: string, name: string) {
    var d := Discover(cfg, store, namespace, name);
    d.Discovered? && d.provisioner != cfg.driverName
  }

  /** The claims resolved in order; the first match or the first error ends it. */
  function Resolve(cfg: Config, store: Store, namespace: string, names: seq<string>): Verdict {
    if names == [] then Keep
    else
      match Discover(cfg, store, namespace, names[0])
      case Aborted(e) => Fail(e)
      case Discovered(p) => if p == cfg.driverName then Assign else Resolve(cfg, store, namespace, names[1..])
  }

  /** The requests Resolve makes, in order. */
  function ResolveRequests(cfg: Config, store: Store, namespace: string, names: seq<string>): seq<Request> {
    if names == [] then []
    else
      DiscoverRequests(cfg, store, namespace, names[0]) +
      (if Passes(cfg, store, namespace, names[0]) then ResolveRequests(cfg, store, namespace, names[1..]) else [])
  }

  /** The decision for a pod with the given scheduler name and volumes. */
  function Decision(cfg: Config, store: Store, namespace: string, schedulerName: string, volumes: seq<Volume>): Verdict {
    if HasExplicitScheduler(schedulerName) then Skip
    else if HasInlineDriver(volumes, cfg.driverName) then Assign
    else Resolve(cfg, store, namespace, ClaimNames(volumes))
  }

  /** The requests the decision makes, in order. */
  function DecisionRequests(cfg: Config, store: Store, namespace: string, schedulerName: string, volumes: seq<Volume>): seq<Request> {
    if HasExplicitScheduler(schedulerName) || HasInlineDriver(volumes, cfg.driverName) then []
    else ResolveRequests(cfg, store, namespace, ClaimNames(volumes))
  }

  /** The result the mutator hands back for a verdict. */
  function ResultOf(v: Verdict): MutatorResult {
    match v
    case Skip => EmptyResult
    case Assign => MutatedPod
    case Keep => MutatedPod
    case Fail(e) => Failed(e)
  }

  /** The scheduler name the pod ends with under a verdict. */
  function SchedulerAfter(cfg: Config, v: Verdict, schedulerName: string): string {
    if v == Assign then cfg.schedulerName else schedulerName
  }

  // ---------------------------------------------------------------------------
  // The mutator

  /** The body of the claim loop: resolves one claim to a discovered
      provisioner, step by step, and reports the requests it made. */
  method DiscoverProvisioner(cfg: Config, store: Store, namespace: string, pvcName: string)
    returns (discovery: Discovery, requests: seq<Request>)
    ensures discovery == Discover(cfg, store, namespace, pvcName)
    ensures requests == DiscoverRequests(cfg, store, namespace, pvcName)
  {
    var discoveredProvisioner := "";

    requests := [GetClaimRequest(namespace, pvcName)];
    var claimLookup := store.GetClaim(namespace, pvcName);
    if claimLookup.Failure? {
      return Aborted(claimLookup.error), requests;
    }
    var pvc := claimLookup.OrElse(EmptyClaim);
    if ProvisionerKey in pvc.annotations {
      discoveredProvisioner := pvc.annotations[ProvisionerKey];
    }
    if BetaProvisionerKey in pvc.annotations {
      discoveredProvisioner := pvc.annotations[BetaProvisionerKey];
    }

    if discoveredProvisioner == "" && pvc.storageClassName.Some? && pvc.storageClassName.value != "" {
      requests := requests + [GetStorageClassRequest(pvc.storageClassName.value)];
      var classLookup := store.GetStorageClass(pvc.storageClassName.value);
      if classLookup.Failure? {
        return Aborted(classLookup.error), requests;
      }
      var sc := classLookup.OrElse(EmptyStorageClass);
      if sc.provisioner == cfg.driverName {
        discoveredProvisioner := sc.provisioner;
      }
    }

    if discoveredProvisioner == "" && pvc.volumeName != "" {
      requests := requests + [GetVolumeRequest(pvc.volumeName)];
      var volumeLookup := store.GetVolume(pvc.volumeName);
      if volumeLookup.Failure? {
        return Aborted(volumeLookup.error), requests;
      }
      var pv := volumeLookup.OrElse(EmptyVolume);
      if pv.csi.Some? {
        discoveredProvisioner := pv.csi.value;
      }
    }
    discovery := Discovered(discoveredProvisioner);
  }

  /** One step of Resolve and ResolveRequests at position `j`. */
  lemma ResolveAt(cfg: Config, store: Store, namespace: string, names: seq<string>, j: nat)
    requires j < |names|
    ensures var d := Discover(cfg, store, namespace, names[j]);
      && Resolve(cfg, store, namespace, names[j..])
        == (if d.Aborted? then Fail(d.error)
            else if d.provisioner == cfg.driverName then Assign
            else Resolve(cfg, store, namespace, names[j + 1..]))
      && ResolveRequests(cfg, store, namespace, names[j..])
        == DiscoverRequests(cfg, store, namespace, names[j])
           + (if Passes(cfg, store, namespace, names[j]) then ResolveRequests(cfg, store, namespace, names[j + 1..]) else [])
  {
    assert names[j..][0] == names[j];
    assert names[j..][1..] == names[j + 1..];
  }

  /** A claim that passes hands the verdict and the remaining requests on
      to the claims after it. */
  lemma PassedStep(cfg: Config, store: Store, namespace: string, names: seq<string>, j: nat)
    requires j < |names| && Passes(cfg, store, namespace, names[j])
    ensures Resolve(cfg, store, namespace, names[j..]) == Resolve(cfg, store, namespace, names[j + 1..])
    ensures ResolveRequests(cfg, store, namespace, names[j..])
      == DiscoverRequests(cfg, store, namespace, names[j]) + ResolveRequests(cfg, store, namespace, names[j + 1..])
  {
    ResolveAt(cfg, store, namespace, names, j);
  }

  /** The requests made for the first `j` claims. */
  function PassedRequests(cfg: Config, store: Store, namespace: string, names: seq<string>, j: nat): seq<Request>
    requires j <= |names|
  {
    if j == 0 then [] else PassedRequests(cfg, store, namespace, names, j - 1) + DiscoverRequests(cfg, store, namespace, names[j - 1])
  }

  /** Once the first `j` claims resolved without error and without a match,
      the verdict and the remaining requests are those of the other claims. */
  lemma {:induction false} ResolveAfterPassed(cfg: Config, store: Store, namespace: string, names: seq<string>, j: nat)
    requires j <= |names|
    requires forall k | 0 <= k < j :: Passes(cfg, store, namespace, names[k])
    ensures Resolve(cfg, store, namespace, names) == Resolve(cfg, store, namespace, names[j..])
    ensures ResolveRequests(cfg, store, namespace, names)
      == PassedRequests(cfg, store, namespace, names, j) + ResolveRequests(cfg, store, namespace, names[j..])
  {
    if j == 0 {
      assert names[0..] == names;
    } else {
      ResolveAfterPassed(cfg, store, namespace, names, j - 1);
      PassedStep(cfg, store, namespace, names, j - 1);
      var before := PassedRequests(cfg, store, namespace, names, j - 1);
      var step := DiscoverRequests(cfg, store, namespace, names[j - 1]);
      var rest := ResolveRequests(cfg, store, namespace, names[j..]);
      ConcatAssociative(before, step, rest);
    }
  }

  lemma ConcatAssociative<T>(a: seq<T>, b: seq<T>, c: seq<T>)
    ensures a + (b + c) == (a + b) + c
  {
  }

  /** The claim loop: resolves the claims in order and stops at the first
      one that matches or fails; reports the requests it made. */
  method ResolveClaims(cfg: Config, store: Store, namespace: string, pvcNames: seq<string>)
    returns (verdict: Verdict, requests: seq<Request>)
    ensures verdict == Resolve(cfg, store, namespace, pvcNames)
    ensures requests == ResolveRequests(cfg, store, namespace, pvcNames)
  {
    requests := [];
    for j := 0 to |pvcNames|
      invariant forall k | 0 <= k < j :: Passes(cfg, store, namespace, pvcNames[k])
      invariant requests == PassedRequests(cfg, store, namespace, pvcNames, j)
    {
      var discovery, claimRequests := DiscoverProvisioner(cfg, store, namespace, pvcNames[j]);
      requests := requests + claimRequests;
      if discovery.Aborted? || discovery.provisioner == cfg.driverName {
        ResolveAfterPassed(cfg, store, namespace, pvcNames, j);
        ResolveAt(cfg, store, namespace, pvcNames, j);
        verdict := if discovery.Aborted? then Fail(discovery.error) else Assign;
        return;
      }
    }
    ResolveAfterPassed(cfg, store, namespace, pvcNames, |pvcNames|);
    verdict := Keep;
  }

  /** The mutator on a pod: it changes the pod's scheduler name, nothing else,
      and reports the requests it made to the store. */
  method MutatePod(cfg: Config, store: Store, namespace: string, pod: Pod)
    returns (result: MutatorResult, requests: seq<Request>)
    modifies pod`schedulerName
    ensures var v := Decision(cfg, store, namespace, old(pod.schedulerName), pod.volumes);
      && result == ResultOf(v)
      && pod.schedulerName == SchedulerAfter(cfg, v, old(pod.schedulerName))
      && requests == DecisionRequests(cfg, store, namespace, old(pod.schedulerName), pod.volumes)
  {
    requests := [];
    if pod.schedulerName != "" && pod.schedulerName != DefaultScheduler {
      return EmptyResult, requests;
    }

    var volumes := pod.volumes;
    var pvcNames: seq<string> := [];
    for i := 0 to |volumes|
      invariant pod.schedulerName == old(pod.schedulerName)
      invariant !HasInlineDriver(volumes[..i], cfg.driverName)
      invariant pvcNames == ClaimNames(volumes[..i])
    {
      var volume := volumes[i];
      assert volumes[..i + 1][..i] == volumes[..i];
      if volume.csi.Some? && volume.csi.value == cfg.driverName {
        pod.schedulerName := cfg.schedulerName;
        assert IsInlineOf(volumes[i], cfg.driverName);
        return MutatedPod, requests;
      }
      if volume.claim.None? {
        continue;
      }
      pvcNames := pvcNames + [volume.claim.value];
    }
    assert volumes[..|volumes|] == volumes;
    var verdict, claimRequests := ResolveClaims(cfg, store, namespace, pvcNames);
    requests := claimRequests;
    if verdict == Assign {
      pod.schedulerName := cfg.schedulerName;
    }
    result := ResultOf(verdict);
  }

  /** The mutator on any admitted object: objects that are not pods are left
      alone with an empty result and no request. */
  method Mutate(cfg: Config, store: Store, namespace: string, obj: Admitted)
    returns (result: MutatorResult, requests: seq<Request>)
    modifies if obj.PodObject? then {obj.pod} else {}
    ensures obj.OtherObject? ==> result == EmptyResult && requests == []
    ensures obj.PodObject? ==>
      var v := Decision(cfg, store, namespace, old(obj.pod.schedulerName), old(obj.pod.volumes));
      && result == ResultOf(v)
      && obj.pod.schedulerName == SchedulerAfter(cfg, v, old(obj.pod.schedulerName))
      && obj.pod.volumes == old(obj.pod.volumes)
      && requests == DecisionRequests(cfg, store, namespace, old(obj.pod.schedulerName), old(obj.pod.volumes))
  {
    match obj
    case OtherObject(_) =>
      return EmptyResult, [];
    case PodObject(pod) =>
      result, requests := MutatePod(cfg, store, namespace, pod);
  }
}
