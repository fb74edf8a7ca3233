/** What the decision promises: early exits, the precedence of inline CSI
    volumes and of annotations, the storage-class and volume fallbacks,
    claim order, error handling and idempotence. */
module AdmissionProperties {
  import opened Cluster
  import opened Admission

  // ---------------------------------------------------------------------------
  // Claim collection

  /** Collecting claims from two runs of volumes is collecting from each in turn. */
  lemma {:induction false} ClaimNamesAppend(a: seq<Volume>, b: seq<Volume>)
    ensures ClaimNames(a + b) == ClaimNames(a) + ClaimNames(b)
    decreases |b|
  {
    if b == [] {
      assert a + b == a;
    } else {
      var b' := b[..|b| - 1];
      assert (a + b)[..|a + b| - 1] == a + b';
      ClaimNamesAppend(a, b');
    }
  }

  /** A claim name is collected exactly when some volume refers to that claim. */
  lemma {:induction false} ClaimNamesExact(volumes: seq<Volume>, name: string)
    ensures name in ClaimNames(volumes) <==> exists i | 0 <= i < |volumes| :: volumes[i].claim == Some(name)
    decreases |volumes|
  {
    if volumes != [] {
      var init := volumes[..|volumes| - 1];
      ClaimNamesExact(init, name);
      if exists i | 0 <= i < |init| :: init[i].claim == Some(name) {
        var i :| 0 <= i < |init| && init[i].claim == Some(name);
        assert volumes[i] == init[i];
      }
      if exists i | 0 <= i < |volumes| :: volumes[i].claim == Some(name) {
        var i :| 0 <= i < |volumes| && volumes[i].claim == Some(name);
        if i < |init| {
          assert init[i] == volumes[i];
        }
      }
    }
  }

  // ---------------------------------------------------------------------------
  // Early exits

  /** A pod with a scheduler of its own is skipped without any lookup,
      whatever its volumes are. */
  lemma ExplicitSchedulerRespected(cfg: Config, store: Store, namespace: string, schedulerName: string, volumes: seq<Volume>)
    requires schedulerName != "" && schedulerName != DefaultScheduler
    ensures Decision(cfg, store, namespace, schedulerName, volumes) == Skip
    ensures DecisionRequests(cfg, store, namespace, schedulerName, volumes) == []
  {
  }

  /** An inline CSI volume of the driver assigns the storage scheduler without
      any lookup, whatever the volumes before and after it are. */
  lemma InlineWins(cfg: Config, store: Store, namespace: string, schedulerName: string,
                   before: seq<Volume>, v: Volume, after: seq<Volume>)
    requires schedulerName == "" || schedulerName == DefaultScheduler
    requires v.csi == Some(cfg.driverName)
    ensures Decision(cfg, store, namespace, schedulerName, before + [v] + after) == Assign
    ensures DecisionRequests(cfg, store, namespace, schedulerName, before + [v] + after) == []
  {
    assert IsInlineOf((before + [v] + after)[|before|], cfg.driverName);
  }

  // ---------------------------------------------------------------------------
  // One claim: annotations, storage class, volume

  /** A non-empty provisioner in the annotations of a claim that did not fail
      to load is what is discovered, and neither the storage class nor the
      volume is looked up; the beta key wins over the stable one. */
  lemma AnnotationDecides(cfg: Config, store: Store, namespace: string, name: string, pvc: Claim)
    requires store.GetClaim(namespace, name) == Found(pvc)
    requires AnnotatedProvisioner(pvc.annotations) != ""
    ensures Discover(cfg, store, namespace, name) == Discovered(AnnotatedProvisioner(pvc.annotations))
    ensures DiscoverRequests(cfg, store, namespace, name) == [GetClaimRequest(namespace, name)]
    ensures BetaProvisionerKey in pvc.annotations ==>
      Discover(cfg, store, namespace, name) == Discovered(pvc.annotations[BetaProvisionerKey])
  {
  }

  /** When the beta key is present, the stable key is never read: giving it
      any value, or none, changes neither the discovery nor the requests. */
  lemma BetaHidesStable(cfg: Config, store: Store, namespace: string, name: string, pvc: Claim, stable: Option<string>)
    requires BetaProvisionerKey in pvc.annotations
    ensures var pvc' := pvc.(annotations :=
        if stable.Some? then pvc.annotations[ProvisionerKey := stable.value] else pvc.annotations - {ProvisionerKey});
      var store1 := store.WithClaim(namespace, name, pvc);
      var store2 := store.WithClaim(namespace, name, pvc');
      && Discover(cfg, store1, namespace, name) == Discover(cfg, store2, namespace, name)
      && DiscoverRequests(cfg, store1, namespace, name) == DiscoverRequests(cfg, store2, namespace, name)
  {
    var pvc' := pvc.(annotations :=
      if stable.Some? then pvc.annotations[ProvisionerKey := stable.value] else pvc.annotations - {ProvisionerKey});
    assert BetaProvisionerKey in pvc'.annotations && pvc'.annotations[BetaProvisionerKey] == pvc.annotations[BetaProvisionerKey];
    DiscoverSeesOnlyAnnotatedProvisioner(cfg, store, namespace, name, pvc, pvc');
  }

  /** An annotated provisioner that is empty, including a beta key present
      with value "", counts as none: the claim resolves as if it had no
      annotations, through its storage class and bound volume. */
  lemma EmptyAnnotationFallsThrough(cfg: Config, store: Store, namespace: string, name: string, pvc: Claim)
    requires AnnotatedProvisioner(pvc.annotations) == ""
    ensures var store1 := store.WithClaim(namespace, name, pvc);
      var store2 := store.WithClaim(namespace, name, pvc.(annotations := map[]));
      && Discover(cfg, store1, namespace, name) == Discover(cfg, store2, namespace, name)
      && DiscoverRequests(cfg, store1, namespace, name) == DiscoverRequests(cfg, store2, namespace, name)
  {
    DiscoverSeesOnlyAnnotatedProvisioner(cfg, store, namespace, name, pvc, pvc.(annotations := map[]));
  }

  /** Of a claim's annotations, discovery sees only the provisioner they give:
      two claims that agree on it and on their class and volume names are
      discovered alike, with the same requests. */
  lemma DiscoverSeesOnlyAnnotatedProvisioner(cfg: Config, store: Store, namespace: string, name: string, pvc1: Claim, pvc2: Claim)
    requires AnnotatedProvisioner(pvc1.annotations) == AnnotatedProvisioner(pvc2.annotations)
    requires pvc1.storageClassName == pvc2.storageClassName && pvc1.volumeName == pvc2.volumeName
    ensures var store1 := store.WithClaim(namespace, name, pvc1);
      var store2 := store.WithClaim(namespace, name, pvc2);
      && Discover(cfg, store1, namespace, name) == Discover(cfg, store2, namespace, name)
      && DiscoverRequests(cfg, store1, namespace, name) == DiscoverRequests(cfg, store2, namespace, name)
  {
    var store1 := store.WithClaim(namespace, name, pvc1);
    var store2 := store.WithClaim(namespace, name, pvc2);
    var p := AnnotatedProvisioner(pvc1.annotations);
    assert FromStorageClass(cfg, store1, pvc1, p) == FromStorageClass(cfg, store2, pvc2, p);
  }

  /** The storage class is looked up exactly when the claim loaded, its
      annotations gave no provisioner and it names a non-empty class; the
      lookup is under that class name. */
  lemma ClassLookedUpIff(cfg: Config, store: Store, namespace: string, name: string, className: string)
    ensures var r := store.GetClaim(namespace, name);
      var pvc := r.OrElse(EmptyClaim);
      GetStorageClassRequest(className) in DiscoverRequests(cfg, store, namespace, name) <==>
        !r.Failure? && AnnotatedProvisioner(pvc.annotations) == "" && NamesClass(pvc)
        && pvc.storageClassName.value == className
  {
  }

  /** The bound volume is looked up exactly when the claim loaded, neither its
      annotations nor its storage class gave a provisioner and it is bound to
      a non-empty volume name; the lookup is under that name. */
  lemma VolumeLookedUpIff(cfg: Config, store: Store, namespace: string, name: string, volumeName: string)
    ensures var r := store.GetClaim(namespace, name);
      var pvc := r.OrElse(EmptyClaim);
      GetVolumeRequest(volumeName) in DiscoverRequests(cfg, store, namespace, name) <==>
        !r.Failure? && FromStorageClass(cfg, store, pvc, AnnotatedProvisioner(pvc.annotations)) == Discovered("")
        && pvc.volumeName != "" && pvc.volumeName == volumeName
  {
  }

  /** Hence a claim that names a foreign provisioner in its annotations never
      matches, even when its storage class and bound volume are the driver's. */
  lemma ForeignAnnotationNeverMatches(cfg: Config, store: Store, namespace: string, name: string, pvc: Claim)
    requires store.GetClaim(namespace, name) == Found(pvc)
    requires AnnotatedProvisioner(pvc.annotations) != ""
    requires AnnotatedProvisioner(pvc.annotations) != cfg.driverName
    ensures Passes(cfg, store, namespace, name)
    ensures !Matches(cfg, store, namespace, name)
  {
    AnnotationDecides(cfg, store, namespace, name, pvc);
  }

  /** With no provisioner from the annotations, a storage class of the driver
      decides the match, and the bound volume is not looked up. */
  lemma StorageClassDecides(cfg: Config, store: Store, namespace: string, name: string, pvc: Claim, className: string)
    requires store.GetClaim(namespace, name) == Found(pvc)
    requires AnnotatedProvisioner(pvc.annotations) == ""
    requires pvc.storageClassName == Some(className) && className != ""
    requires store.GetStorageClass(className) == Found(StorageClass(cfg.driverName))
    ensures cfg.driverName != "" ==> Matches(cfg, store, namespace, name)
    ensures cfg.driverName != "" ==>
      DiscoverRequests(cfg, store, namespace, name) == [GetClaimRequest(namespace, name), GetStorageClassRequest(className)]
  {
  }

  /** A storage class that is not the driver's, or is not found, contributes
      nothing: resolution goes on to the bound volume exactly as if the claim
      named no class. */
  lemma ForeignClassFallsThrough(cfg: Config, store: Store, namespace: string, name: string, pvc: Claim, className: string)
    requires store.GetClaim(namespace, name) == Found(pvc)
    requires AnnotatedProvisioner(pvc.annotations) == ""
    requires pvc.storageClassName == Some(className) && className != ""
    requires store.GetStorageClass(className).NotFound?
      || (store.GetStorageClass(className).Found? && store.GetStorageClass(className).value.provisioner != cfg.driverName)
    ensures Discover(cfg, store, namespace, name) == FromVolume(store, pvc, "")
    ensures DiscoverRequests(cfg, store, namespace, name)
      == [GetClaimRequest(namespace, name), GetStorageClassRequest(className)]
         + (if pvc.volumeName != "" then [GetVolumeRequest(pvc.volumeName)] else [])
  {
  }

  /** When neither annotations nor storage class gave a provisioner, the CSI
      driver of the bound volume is what is discovered, whatever it is. */
  lemma VolumeDecides(cfg: Config, store: Store, namespace: string, name: string, pvc: Claim, driver: string)
    requires store.GetClaim(namespace, name) == Found(pvc)
    requires AnnotatedProvisioner(pvc.annotations) == ""
    requires FromStorageClass(cfg, store, pvc, "") == Discovered("")
    requires pvc.volumeName != ""
    requires store.GetVolume(pvc.volumeName) == Found(PersistentVolume(Some(driver)))
    ensures Discover(cfg, store, namespace, name) == Discovered(driver)
    ensures Matches(cfg, store, namespace, name) <==> driver == cfg.driverName
  {
  }

  /** A claim that is not found is read as the empty claim: it discovers
      nothing, makes only its own lookup, and fails no decision. */
  lemma MissingClaimDiscoversNothing(cfg: Config, store: Store, namespace: string, name: string)
    requires store.GetClaim(namespace, name).NotFound?
    ensures Discover(cfg, store, namespace, name) == Discovered("")
    ensures DiscoverRequests(cfg, store, namespace, name) == [GetClaimRequest(namespace, name)]
  {
  }

  // ---------------------------------------------------------------------------
  // All claims, in order

  /** The claims assign the scheduler exactly when some claim matches and
      every claim before it resolves without error and does not match. */
  lemma {:induction false} ResolveAssigns(cfg: Config, store: Store, namespace: string, names: seq<string>)
    ensures Resolve(cfg, store, namespace, names) == Assign <==>
      exists k | 0 <= k < |names| ::
        Matches(cfg, store, namespace, names[k]) &&
        forall j | 0 <= j < k :: Passes(cfg, store, namespace, names[j])
  {
    if names != [] {
      ResolveAssigns(cfg, store, namespace, names[1..]);
      var tail := names[1..];
      if Resolve(cfg, store, namespace, names) == Assign && !Matches(cfg, store, namespace, names[0]) {
        var k :| 0 <= k < |tail| && Matches(cfg, store, namespace, tail[k]) &&
          forall j | 0 <= j < k :: Passes(cfg, store, namespace, tail[j]);
        assert names[k + 1] == tail[k];
        forall j | 0 <= j < k + 1 ensures Passes(cfg, store, namespace, names[j]) {
          if j > 0 { assert names[j] == tail[j - 1]; }
        }
      }
      if exists k | 0 <= k < |names| :: Matches(cfg, store, namespace, names[k]) &&
                                     forall j | 0 <= j < k :: Passes(cfg, store, namespace, names[j]) {
        var k :| 0 <= k < |names| && Matches(cfg, store, namespace, names[k]) &&
          forall j | 0 <= j < k :: Passes(cfg, store, namespace, names[j]);
        if k > 0 {
          assert Passes(cfg, store, namespace, names[0]);
          assert tail[k - 1] == names[k];
          forall j | 0 <= j < k - 1 ensures Passes(cfg, store, namespace, tail[j]) {
            assert tail[j] == names[j + 1];
          }
        }
      }
    }
  }

  /** The pod is kept as it is exactly when every claim resolves without
      error and none matches. */
  lemma {:induction false} ResolveKeeps(cfg: Config, store: Store, namespace: string, names: seq<string>)
    ensures Resolve(cfg, store, namespace, names) == Keep <==>
      forall j | 0 <= j < |names| :: Passes(cfg, store, namespace, names[j])
  {
    if names != [] {
      var tail := names[1..];
      ResolveKeeps(cfg, store, namespace, tail);
      if forall j | 0 <= j < |names| :: Passes(cfg, store, namespace, names[j]) {
        assert Passes(cfg, store, namespace, names[0]);
        forall j | 0 <= j < |tail| ensures Passes(cfg, store, namespace, tail[j]) {
          assert tail[j] == names[j + 1];
        }
      }
      if Resolve(cfg, store, namespace, names) == Keep {
        forall j | 0 <= j < |names| ensures Passes(cfg, store, namespace, names[j]) {
          if j > 0 { assert names[j] == tail[j - 1]; }
        }
      }
    }
  }

  /** The decision fails with error `e` exactly when some claim aborts with
      `e` and every claim before it resolves without error and does not match. */
  lemma {:induction false} ResolveFails(cfg: Config, store: Store, namespace: string, names: seq<string>, e: string)
    ensures Resolve(cfg, store, namespace, names) == Fail(e) <==>
      exists k | 0 <= k < |names| ::
        Discover(cfg, store, namespace, names[k]) == Aborted(e) &&
        forall j | 0 <= j < k :: Passes(cfg, store, namespace, names[j])
  {
    if names != [] {
      var tail := names[1..];
      ResolveFails(cfg, store, namespace, tail, e);
      if Resolve(cfg, store, namespace, names) == Fail(e) && Discover(cfg, store, namespace, names[0]) != Aborted(e) {
        var k :| 0 <= k < |tail| && Discover(cfg, store, namespace, tail[k]) == Aborted(e) &&
          forall j | 0 <= j < k :: Passes(cfg, store, namespace, tail[j]);
        assert names[k + 1] == tail[k];
        forall j | 0 <= j < k + 1 ensures Passes(cfg, store, namespace, names[j]) {
          if j > 0 { assert names[j] == tail[j - 1]; }
        }
      }
      if exists k | 0 <= k < |names| :: Discover(cfg, store, namespace, names[k]) == Aborted(e) &&
                                     forall j | 0 <= j < k :: Passes(cfg, store, namespace, names[j]) {
        var k :| 0 <= k < |names| && Discover(cfg, store, namespace, names[k]) == Aborted(e) &&
          forall j | 0 <= j < k :: Passes(cfg, store, namespace, names[j]);
        if k > 0 {
          assert Passes(cfg, store, namespace, names[0]);
          assert tail[k - 1] == names[k];
          forall j | 0 <= j < k - 1 ensures Passes(cfg, store, namespace, tail[j]) {
            assert tail[j] == names[j + 1];
          }
        }
      }
    }
  }

  /** Claims are looked up in order, and once claim `k` matches no later
      claim is looked up: the requests are those of the claims before `k`
      followed by those of claim `k`. */
  lemma StopsAtFirstMatch(cfg: Config, store: Store, namespace: string, names: seq<string>, k: nat)
    requires k < |names|
    requires Matches(cfg, store, namespace, names[k])
    requires forall j | 0 <= j < k :: Passes(cfg, store, namespace, names[j])
    ensures Resolve(cfg, store, namespace, names) == Assign
    ensures ResolveRequests(cfg, store, namespace, names)
      == PassedRequests(cfg, store, namespace, names, k) + DiscoverRequests(cfg, store, namespace, names[k])
  {
    ResolveAfterPassed(cfg, store, namespace, names, k);
    ResolveAt(cfg, store, namespace, names, k);
  }

  // ---------------------------------------------------------------------------
  // Errors

  /** Every request but the last one got an answer that was not an error
      (an object or NotFound). */
  predicate OnlyLastMayFail(store: Store, requests: seq<Request>) {
    forall k | 0 <= k < |requests| - 1 :: store.FailureOf(requests[k]).None?
  }

  /** The error the last request was answered with, if any. */
  function LastFailure(store: Store, requests: seq<Request>): Option<string> {
    if requests == [] then None else store.FailureOf(requests[|requests| - 1])
  }

  /** One claim aborts exactly when its last lookup failed, and with that
      lookup's error; NotFound answers never abort it. */
  lemma DiscoverFailsOnlyOnFailedLookup(cfg: Config, store: Store, namespace: string, name: string)
    ensures var requests := DiscoverRequests(cfg, store, namespace, name);
      && requests != []
      && OnlyLastMayFail(store, requests)
      && LastFailure(store, requests)
        == (match Discover(cfg, store, namespace, name) case Aborted(e) => Some(e) case Discovered(_) => None)
  {
  }

  /** The claims fail exactly when the last lookup made failed, with its
      error; every earlier lookup was answered without error. */
  lemma {:induction false} ResolveFailsOnlyOnFailedLookup(cfg: Config, store: Store, namespace: string, names: seq<string>)
    ensures var requests := ResolveRequests(cfg, store, namespace, names);
      && OnlyLastMayFail(store, requests)
      && LastFailure(store, requests)
        == (match Resolve(cfg, store, namespace, names) case Fail(e) => Some(e) case _ => None)
  {
    if names != [] {
      var head := DiscoverRequests(cfg, store, namespace, names[0]);
      DiscoverFailsOnlyOnFailedLookup(cfg, store, namespace, names[0]);
      if Passes(cfg, store, namespace, names[0]) {
        ResolveFailsOnlyOnFailedLookup(cfg, store, namespace, names[1..]);
        FailuresOfConcat(store, head, ResolveRequests(cfg, store, namespace, names[1..]));
      }
    }
  }

  /** A run of requests whose every answer was free of error, followed by
      another run, fails as the second run does. */
  lemma FailuresOfConcat(store: Store, head: seq<Request>, rest: seq<Request>)
    requires head != [] && OnlyLastMayFail(store, head) && LastFailure(store, head) == None
    requires OnlyLastMayFail(store, rest)
    ensures OnlyLastMayFail(store, head + rest)
    ensures LastFailure(store, head + rest) == LastFailure(store, rest)
  {
  }

  /** The whole decision fails exactly when the last lookup it made failed,
      with that lookup's error. */
  lemma DecisionFailsOnlyOnFailedLookup(cfg: Config, store: Store, namespace: string, schedulerName: string, volumes: seq<Volume>)
    ensures var requests := DecisionRequests(cfg, store, namespace, schedulerName, volumes);
      && OnlyLastMayFail(store, requests)
      && LastFailure(store, requests)
        == (match Decision(cfg, store, namespace, schedulerName, volumes) case Fail(e) => Some(e) case _ => None)
  {
    ResolveFailsOnlyOnFailedLookup(cfg, store, namespace, ClaimNames(volumes));
  }

  /** A claim of a valid name, in a store whose claims refer only to valid
      names, is looked up with valid names only: the storage class and the
      volume are looked up only under the non-empty names the claim holds. */
  lemma DiscoverNamesValid(cfg: Config, store: Store, namespace: string, name: string)
    requires store.ClaimsValid() && ValidName(name)
    ensures forall r | r in DiscoverRequests(cfg, store, namespace, name) :: ValidName(r.name)
  {
    if store.GetClaim(namespace, name).Found? {
      assert (namespace, name) in store.claims;
    }
  }

  /** Claims of valid names, in a store whose claims refer only to valid
      names, make requests of valid names only. */
  lemma {:induction false} RequestNamesValid(cfg: Config, store: Store, namespace: string, names: seq<string>)
    requires store.ClaimsValid()
    requires forall n | n in names :: ValidName(n)
    ensures forall r | r in ResolveRequests(cfg, store, namespace, names) :: ValidName(r.name)
  {
    if names != [] {
      DiscoverNamesValid(cfg, store, namespace, names[0]);
      RequestNamesValid(cfg, store, namespace, names[1..]);
    }
  }

  /** In a store that answers only with objects or NotFound and whose claims
      refer only to valid names, a pod whose claim volumes all name a claim
      validly makes no decision fail. */
  lemma NotFoundNeverFails(cfg: Config, store: Store, namespace: string, schedulerName: string, volumes: seq<Volume>)
    requires store.NeverFails() && store.ClaimsValid()
    requires forall i | 0 <= i < |volumes| && volumes[i].claim.Some? :: ValidName(volumes[i].claim.value)
    ensures !Decision(cfg, store, namespace, schedulerName, volumes).Fail?
  {
    DecisionFailsOnlyOnFailedLookup(cfg, store, namespace, schedulerName, volumes);
    forall n | n in ClaimNames(volumes)
      ensures ValidName(n)
    {
      ClaimNamesExact(volumes, n);
    }
    RequestNamesValid(cfg, store, namespace, ClaimNames(volumes));
    var requests := DecisionRequests(cfg, store, namespace, schedulerName, volumes);
    if requests != [] {
      var last := requests[|requests| - 1];
      assert last in ResolveRequests(cfg, store, namespace, ClaimNames(volumes));
      NamedRequestAnswered(store, last);
    }
  }

  /** A store that answers only with objects or NotFound answers every
      request of a valid name without error. */
  lemma NamedRequestAnswered(store: Store, req: Request)
    requires store.NeverFails() && ValidName(req.name)
    ensures store.FailureOf(req).None?
  {
    match req
    case GetClaimRequest(ns, n) => assert !store.GetClaim(ns, n).Failure?;
    case GetStorageClassRequest(n) => assert !store.GetStorageClass(n).Failure?;
    case GetVolumeRequest(n) => assert !store.GetVolume(n).Failure?;
  }

  /** A claim name the client does not accept ("", ".", "..", or one holding
      '/' or '%') is refused before any request is sent, with an error that is
      not NotFound: the claim aborts, and a pod whose only volume names it
      fails with that error. */
  lemma InvalidClaimNameFails(cfg: Config, store: Store, namespace: string, name: string)
    requires !ValidName(name)
    ensures Discover(cfg, store, namespace, name) == Aborted(NameError(name))
    ensures Decision(cfg, store, namespace, "", [Volume(None, Some(name))]) == Fail(NameError(name))
  {
    assert ClaimNames([Volume(None, Some(name))]) == [name];
    assert !IsInlineOf([Volume(None, Some(name))][0], cfg.driverName);
  }

  // ---------------------------------------------------------------------------
  // Idempotence

  /** Once the storage scheduler is assigned, deciding again on the mutated
      pod, against any cluster state, is a no-op with no lookup; a verdict
      other than Assign leaves the scheduler name as it was. */
  lemma Idempotent(cfg: Config, store: Store, store': Store, namespace: string, schedulerName: string, volumes: seq<Volume>)
    requires cfg.schedulerName != "" && cfg.schedulerName != DefaultScheduler
    ensures var v := Decision(cfg, store, namespace, schedulerName, volumes);
      var after := SchedulerAfter(cfg, v, schedulerName);
      && (v == Assign ==>
            Decision(cfg, store', namespace, after, volumes) == Skip &&
            DecisionRequests(cfg, store', namespace, after, volumes) == [])
      && (v != Assign ==> after == schedulerName)
  {
  }

  // ---------------------------------------------------------------------------
  // Worked examples

  /** A pod in namespace "default" with one volume referring to claim
      "data-0"; the claim has no annotations, names storage class "fast" of a
      foreign provisioner and is bound to volume "pvc-123". */
  function ExamplePodVolumes(): seq<Volume> {
    [Volume(None, Some("data-0"))]
  }

  function ExampleStore(volumes: map<string, Lookup<PersistentVolume>>): Store {
    Store(
      map[("default", "data-0") := Found(Claim(map[], Some("fast"), "pvc-123"))],
      map["fast" := Found(StorageClass("other.csi.example.com"))],
      volumes)
  }

  /** When "pvc-123" is a CSI volume of the driver, the storage scheduler is
      assigned after three lookups. */
  lemma ExampleBoundVolumeMatches()
    ensures var store := ExampleStore(map["pvc-123" := Found(PersistentVolume(Some(DefaultConfig.driverName)))]);
      && Decision(DefaultConfig, store, "default", "", ExamplePodVolumes()) == Assign
      && DecisionRequests(DefaultConfig, store, "default", "", ExamplePodVolumes())
        == [GetClaimRequest("default", "data-0"), GetStorageClassRequest("fast"), GetVolumeRequest("pvc-123")]
  {
    var store := ExampleStore(map["pvc-123" := Found(PersistentVolume(Some(DefaultConfig.driverName)))]);
    assert ClaimNames(ExamplePodVolumes()) == ["data-0"];
    assert !IsInlineOf(ExamplePodVolumes()[0], DefaultConfig.driverName);
    assert Discover(DefaultConfig, store, "default", "data-0") == Discovered(DefaultConfig.driverName);
  }

  /** When "pvc-123" is not found, the pod is kept as it is, without error. */
  lemma ExampleMissingVolumeKeeps()
    ensures Decision(DefaultConfig, ExampleStore(map[]), "default", "", ExamplePodVolumes()) == Keep
  {
    var store := ExampleStore(map[]);
    assert ClaimNames(ExamplePodVolumes()) == ["data-0"];
    assert !IsInlineOf(ExamplePodVolumes()[0], DefaultConfig.driverName);
    assert Discover(DefaultConfig, store, "default", "data-0") == Discovered("");
  }

  /** A client of the mutator: the first call assigns the storage scheduler,
      the second one on the mutated pod leaves it alone without a lookup. */
  method MutateTwice() {
    var store := ExampleStore(map["pvc-123" := Found(PersistentVolume(Some(DefaultConfig.driverName)))]);
    var pod := new Pod("", ExamplePodVolumes());
    ExampleBoundVolumeMatches();
    var result, requests := Mutate(DefaultConfig, store, "default", PodObject(pod));
    assert result == MutatedPod && pod.schedulerName == "linstor" && |requests| == 3;
    result, requests := Mutate(DefaultConfig, store, "default", PodObject(pod));
    assert result == EmptyResult && pod.schedulerName == "linstor" && requests == [];
  }
}
