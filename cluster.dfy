/** The cluster objects the admission mutator reads or changes, and the
    read-only object store it queries.  Only the attributes the mutator
    looks at are modelled. */
module Cluster {

  datatype Option<T> = None | Some(value: T)

  /** A volume declared in a pod spec.  `csi` is the driver of an inline CSI
      volume source, `claim` the claim name of a PersistentVolumeClaim volume
      source; a volume with neither (a ConfigMap, a Secret, ...) has both None. */
  datatype Volume = Volume(csi: Option<string>, claim: Option<string>)

  /** A pod.  The mutator overwrites `schedulerName` in place and nothing else. */
  class Pod {
    var schedulerName: string
    var volumes: seq<Volume>

    constructor (schedulerName: string, volumes: seq<Volume>)
      ensures this.schedulerName == schedulerName && this.volumes == volumes
    {
      this.schedulerName := schedulerName;
      this.volumes := volumes;
    }
  }

  /** The object handed to the mutator: it may be any kind of object. */
  datatype Admitted = PodObject(pod: Pod) | OtherObject(kind: string)

  /** A PersistentVolumeClaim: its annotations, its optional storage class
      name (a nil pointer is None) and the name of the volume it is bound to
      ("" when unbound). */
  datatype Claim = Claim(annotations: map<string, string>, storageClassName: Option<string>, volumeName: string)

  /** A StorageClass and the provisioner it names. */
  datatype StorageClass = StorageClass(provisioner: string)

  /** A PersistentVolume; `csi` is its CSI driver when it has a CSI source. */
  datatype PersistentVolume = PersistentVolume(csi: Option<string>)

  /** The zero objects a lookup hands back together with a NotFound error. */
  const EmptyClaim := Claim(map[], None, "")
  const EmptyStorageClass := StorageClass("")
  const EmptyVolume := PersistentVolume(None)

  /** The outcome of one lookup: the object, NotFound, or any other error. */
  datatype Lookup<T> = Found(value: T) | NotFound | Failure(error: string) {
    /** The object a caller goes on with when the lookup did not fail. */
    function OrElse(empty: T): T {
      if Found? then value else empty
    }

    /** The error of a lookup that failed other than with NotFound. */
    function ErrorOf(): Option<string> {
      if Failure? then Some(error) else None
    }
  }

  /** A name the client accepts as one segment of a request path: not empty,
      not "." or "..", and without '/' or '%'.  The client refuses any other
      name before a request reaches the API server. */
  predicate ValidName(name: string) {
    name != "" && name != "." && name != ".." && '/' !in name && '%' !in name
  }

  /** The errors the client refuses a name with; neither is NotFound. */
  const EmptyNameError := "resource name may not be empty"
  const InvalidNameError := "invalid resource name"

  function NameError(name: string): string {
    if name == "" then EmptyNameError else InvalidNameError
  }

  /** The names a stored claim refers to are valid, as the API server
      validates a claim's storage class and volume names when it is stored. */
  predicate ClaimNamesValid(pvc: Claim) {
    && (pvc.storageClassName.Some? && pvc.storageClassName.value != "" ==> ValidName(pvc.storageClassName.value))
    && (pvc.volumeName != "" ==> ValidName(pvc.volumeName))
  }

  /** The three read operations of the cluster object store.  Claims are keyed
      by namespace and name; storage classes and volumes are cluster scoped.
      A key that is absent stands for NotFound; a name that is not valid is
      refused by the client. */
  datatype Store = Store(
    claims: map<(string, string), Lookup<Claim>>,
    classes: map<string, Lookup<StorageClass>>,
    volumes: map<string, Lookup<PersistentVolume>>)
  {
    function GetClaim(namespace: string, name: string): Lookup<Claim> {
      if !ValidName(name) then Failure(NameError(name))
      else if (namespace, name) in claims then claims[(namespace, name)] else NotFound
    }

    function GetStorageClass(name: string): Lookup<StorageClass> {
      if !ValidName(name) then Failure(NameError(name))
      else if name in classes then classes[name] else NotFound
    }

    function GetVolume(name: string): Lookup<PersistentVolume> {
      if !ValidName(name) then Failure(NameError(name))
      else if name in volumes then volumes[name] else NotFound
    }

    /** The error the store answers `req` with, if it answers with one that
        is not NotFound. */
    function FailureOf(req: Request): Option<string> {
      match req
      case GetClaimRequest(ns, n) => GetClaim(ns, n).ErrorOf()
      case GetStorageClassRequest(n) => GetStorageClass(n).ErrorOf()
      case GetVolumeRequest(n) => GetVolume(n).ErrorOf()
    }

    /** The same store with claim `name` in `namespace` replaced by `pvc`. */
    function WithClaim(namespace: string, name: string, pvc: Claim): Store {
      Store(claims[(namespace, name) := Found(pvc)], classes, volumes)
    }

    /** No stored answer is an error other than NotFound. */
    predicate NeverFails() {
      (forall k | k in claims :: !claims[k].Failure?) &&
      (forall k | k in classes :: !classes[k].Failure?) &&
      (forall k | k in volumes :: !volumes[k].Failure?)
    }

    /** Every stored claim refers only to valid names. */
    predicate ClaimsValid() {
      forall k | k in claims && claims[k].Found? :: ClaimNamesValid(claims[k].value)
    }
  }

  /** One request made to the store, in the order the mutator makes them. */
  datatype Request =
    | GetClaimRequest(namespace: string, name: string)
    | GetStorageClassRequest(name: string)
    | GetVolumeRequest(name: string)
}
