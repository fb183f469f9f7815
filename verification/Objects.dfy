/** The Kubernetes objects that the controllers and webhooks read and write. */
module Objects {

  datatype Option<+T> = None | Some(value: T)

  /** What a call returns: its value, or an error whose text the callers never inspect. */
  datatype Result<+T> = Ok(value: T) | Err

  /** The namespace and name of a namespaced object. */
  datatype Key = Key(namespace: string, name: string)

  /** A ManifestWork lives in the namespace of a managed cluster. */
  datatype WorkKey = WorkKey(cluster: string, name: string)

  /* ----- Capp specification ----- */

  datatype EnvFrom = EnvFrom(configMapRef: Option<string>, secretRef: Option<string>)

  datatype ValueSource = ValueSource(configMapKeyRef: Option<string>, secretKeyRef: Option<string>)

  datatype EnvVar = EnvVar(name: string, valueFrom: Option<ValueSource>)

  /** A resource list is absent when the source's map is nil. */
  type ResourceList = Option<map<string, string>>

  datatype Container = Container(envFrom: seq<EnvFrom>, env: seq<EnvVar>,
                                 requests: ResourceList, limits: ResourceList)

  datatype Volume = Volume(configMap: Option<string>, secret: Option<string>)

  datatype LogSpec = LogSpec(kind: string, host: string, index: string, user: string, passwordSecret: string)

  datatype CappSpec = CappSpec(site: string, containers: seq<Container>, volumes: seq<Volume>,
                               imagePullSecrets: seq<string>, hostname: string, logSpec: LogSpec)

  /** A stored Capp. `site` is status.applicationLinks.site, `report` is the rest of the status. */
  datatype Capp = Capp(uid: nat, version: nat, deleting: bool, finalizers: set<string>,
                       labels: map<string, string>, annotations: map<string, string>,
                       spec: CappSpec, site: string, report: string)

  /* ----- ManifestWork ----- */

  datatype Subject = Subject(kind: string, name: string)

  datatype RoleBinding = RoleBinding(role: string, subjects: seq<Subject>)

  datatype Manifest =
    | CappManifest(key: Key, labels: map<string, string>, annotations: map<string, string>,
                   spec: CappSpec, site: string, report: string)
    | NamespaceManifest(name: string, labels: map<string, string>)
    | ConfigMapManifest(key: Key, labels: map<string, string>, data: map<string, string>)
    | SecretManifest(key: Key, labels: map<string, string>, data: map<string, string>, secretType: string)
    | RoleManifest(key: Key, labels: map<string, string>)
    | RoleBindingManifest(key: Key, labels: map<string, string>, role: string, subjects: seq<Subject>)

  datatype Work = Work(version: nat, deleting: bool, finalizers: set<string>, status: string,
                       configs: seq<string>, manifests: seq<Manifest>)

  /** The operator's configuration object. */
  datatype RcsConfig = RcsConfig(placementsNamespace: string, placements: seq<string>,
                                 defaultRequests: map<string, string>, defaultLimits: map<string, string>,
                                 invalidHostnamePatterns: seq<string>)

  /* ----- Keys and values that the program fixes ----- */

  const HAS_PLACEMENT := "rcs.dana.io/has-placement"
  const LAST_UPDATED_BY := "rcs.dana.io/last-updated-by"
  const MANAGED_BY := "rcs.dana.io/managed-by"
  const MANAGED_BY_VALUE := "rcs"
  const CLEANUP := "dana.io/capp-cleanup"

  /** The value found under a key of an annotation map, or the empty string. */
  function Placement(c: Capp): string {
    if HAS_PLACEMENT in c.annotations then c.annotations[HAS_PLACEMENT] else ""
  }

  /** Whether the Capp has been placed on a managed cluster: the annotation exists and is not empty. */
  predicate Placed(c: Capp) {
    Placement(c) != ""
  }

  /** The lookup by which both controllers filter events. */
  predicate ContainsPlacementAnnotation(c: Capp): (b: bool)
    ensures b <==> Placed(c)
  {
    if |c.annotations| == 0 then false
    else HAS_PLACEMENT in c.annotations && |c.annotations[HAS_PLACEMENT]| > 0
  }
}
