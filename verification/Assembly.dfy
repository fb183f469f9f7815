/** A mutable string map, as Go shares it between copies of one struct. */
module Heap {
  class StringMap {
    var entries: map<string, string>

    constructor (entries: map<string, string>)
      ensures this.entries == entries
    {
      this.entries := entries;
    }
  }
}

/** Assembling the manifests that a ManifestWork carries for one Capp. */
module Assembly {
  import opened Objects
  import opened References
  import opened Heap

  datatype Secret = Secret(data: map<string, string>, secretType: string)

  /** The objects a Capp refers to, as the API server holds them; listing the RoleBindings may fail. */
  datatype Resources = Resources(configMaps: map<Key, map<string, string>>, secrets: map<Key, Secret>,
                                 roleBindings: Result<map<string, seq<RoleBinding>>>)

  /* ----- Specification ----- */

  const MANAGED: map<string, string> := map[MANAGED_BY := MANAGED_BY_VALUE]

  predicate AllIn<V>(names: seq<string>, namespace: string, objects: map<Key, V>) {
    forall i :: 0 <= i < |names| ==> Key(namespace, names[i]) in objects
  }

  /** Every referenced ConfigMap and Secret exists in the Capp's namespace. */
  predicate Resolves(k: Key, spec: CappSpec, res: Resources) {
    AllIn(ConfigMapRefs(spec), k.namespace, res.configMaps) && AllIn(SecretRefs(spec), k.namespace, res.secrets)
  }

  function CappPart(k: Key, c: Capp): Manifest {
    CappManifest(k, c.labels[MANAGED_BY := MANAGED_BY_VALUE], c.annotations, c.spec, c.site, c.report)
  }

  function ConfigMapParts(names: seq<string>, namespace: string, res: Resources): (ms: seq<Manifest>)
    requires AllIn(names, namespace, res.configMaps)
    ensures |ms| == |names|
    ensures forall i :: 0 <= i < |names| ==>
      ms[i] == ConfigMapManifest(Key(namespace, names[i]), MANAGED, res.configMaps[Key(namespace, names[i])])
  {
    if names == [] then []
    else
      var k := Key(namespace, names[0]);
      assert AllIn(names[1..], namespace, res.configMaps);
      [ConfigMapManifest(k, MANAGED, res.configMaps[k])] + ConfigMapParts(names[1..], namespace, res)
  }

  function SecretParts(names: seq<string>, namespace: string, res: Resources): (ms: seq<Manifest>)
    requires AllIn(names, namespace, res.secrets)
    ensures |ms| == |names|
    ensures forall i :: 0 <= i < |names| ==>
      ms[i] == SecretManifest(Key(namespace, names[i]), MANAGED, res.secrets[Key(namespace, names[i])].data,
                              res.secrets[Key(namespace, names[i])].secretType)
  {
    if names == [] then []
    else
      var k := Key(namespace, names[0]);
      assert AllIn(names[1..], namespace, res.secrets);
      [SecretManifest(k, MANAGED, res.secrets[k].data, res.secrets[k].secretType)]
      + SecretParts(names[1..], namespace, res)
  }

  function VolumeParts(k: Key, spec: CappSpec, res: Resources): seq<Manifest>
    requires Resolves(k, spec, res)
  {
    ConfigMapParts(ConfigMapRefs(spec), k.namespace, res) + SecretParts(SecretRefs(spec), k.namespace, res)
  }

  /** The bindings that a successful list returns. */
  function BindingsIn(namespace: string, res: Resources): seq<RoleBinding>
    requires res.roleBindings.Ok?
  {
    if namespace in res.roleBindings.value then res.roleBindings.value[namespace] else []
  }

  /** The subjects of a binding that gives access to logs. */
  function LogSubjects(rb: RoleBinding): seq<Subject> {
    if rb.role == "admin" || rb.role == "logs-reader" then rb.subjects else []
  }

  function SubjectName(s: Subject): Option<string> { Some(s.name) }

  /** The users with access to logs: names, in order and with repetitions. */
  function LogUsers(bindings: seq<RoleBinding>): seq<string> {
    NestedRefs(bindings, LogSubjects, SubjectName)
  }

  function AsUsers(names: seq<string>): (subjects: seq<Subject>)
    ensures |subjects| == |names|
    ensures forall i :: 0 <= i < |names| ==> subjects[i] == Subject("User", names[i])
  {
    if names == [] then [] else [Subject("User", names[0])] + AsUsers(names[1..])
  }

  function LogsReader(k: Key): Key {
    Key(k.namespace, k.name + "-logs-reader")
  }

  function AuthParts(k: Key, res: Resources): seq<Manifest>
    requires res.roleBindings.Ok?
  {
    [RoleManifest(LogsReader(k), MANAGED),
     RoleBindingManifest(LogsReader(k), MANAGED, LogsReader(k).name, AsUsers(LogUsers(BindingsIn(k.namespace, res))))]
  }

  /** The manifests of one Capp, or an error when a reference dangles or the RoleBindings cannot be listed. */
  function Assemble(k: Key, c: Capp, res: Resources): Result<seq<Manifest>> {
    if Resolves(k, c.spec, res) && res.roleBindings.Ok? then
      Ok([CappPart(k, c), NamespaceManifest(k.namespace, MANAGED)]
         + VolumeParts(k, c.spec, res)
         + AuthParts(k, res))
    else Err
  }

  /* ----- What the assembled list is ----- */

  function LabelsOf(m: Manifest): map<string, string> { m.labels }

  /** Everything but the Namespace object itself lives in the Capp's namespace. */
  predicate InNamespace(m: Manifest, namespace: string) {
    if m.NamespaceManifest? then m.name == namespace else m.key.namespace == namespace
  }

  lemma AllInMeans<V>(names: seq<string>, namespace: string, objects: map<Key, V>)
    ensures AllIn(names, namespace, objects) <==> forall n :: n in names ==> Key(namespace, n) in objects
  {
    if AllIn(names, namespace, objects) {
      forall n | n in names
        ensures Key(namespace, n) in objects
      {
        var i :| 0 <= i < |names| && names[i] == n;
      }
    }
  }

  /** Assembly succeeds exactly when all references exist and the RoleBindings can be listed. */
  lemma AssemblyAllOrNothing(k: Key, c: Capp, res: Resources)
    ensures Assemble(k, c, res).Ok? <==>
      && (forall n :: n in ConfigMapRefs(c.spec) ==> Key(k.namespace, n) in res.configMaps)
      && (forall n :: n in SecretRefs(c.spec) ==> Key(k.namespace, n) in res.secrets)
      && res.roleBindings.Ok?
  {
    AllInMeans(ConfigMapRefs(c.spec), k.namespace, res.configMaps);
    AllInMeans(SecretRefs(c.spec), k.namespace, res.secrets);
  }

  predicate IsConfigMapPart(m: Manifest, k: Key, name: string, res: Resources) {
    var at := Key(k.namespace, name);
    at in res.configMaps && m == ConfigMapManifest(at, map[MANAGED_BY := "rcs"], res.configMaps[at])
  }

  predicate IsSecretPart(m: Manifest, k: Key, name: string, res: Resources) {
    var at := Key(k.namespace, name);
    && at in res.secrets
    && m == SecretManifest(at, map[MANAGED_BY := "rcs"], res.secrets[at].data, res.secrets[at].secretType)
  }

  /** A Role, and a RoleBinding that refers to it and whose subjects are the users with access to logs. */
  predicate IsLogAccess(role: Manifest, binding: Manifest, k: Key, res: Resources) {
    && res.roleBindings.Ok?
    && role == RoleManifest(Key(k.namespace, k.name + "-logs-reader"), map[MANAGED_BY := "rcs"])
    && binding.RoleBindingManifest?
    && binding.key == role.key && binding.labels == role.labels && binding.role == role.key.name
    && var listed := res.roleBindings.value;
    && var users := LogUsers(if k.namespace in listed then listed[k.namespace] else []);
    && |binding.subjects| == |users|
    && (forall i :: 0 <= i < |users| ==> binding.subjects[i] == Subject("User", users[i]))
  }

  lemma AuthPartsIs(k: Key, res: Resources)
    requires res.roleBindings.Ok?
    ensures |AuthParts(k, res)| == 2 && IsLogAccess(AuthParts(k, res)[0], AuthParts(k, res)[1], k, res)
  {
  }

  lemma AssemblyParts(k: Key, c: Capp, res: Resources)
    requires Assemble(k, c, res).Ok?
    ensures
      var ms := Assemble(k, c, res).value;
      var cms, ss := ConfigMapRefs(c.spec), SecretRefs(c.spec);
      && |ms| == 4 + |cms| + |ss|
      && ms[0] == CappPart(k, c) && ms[1] == NamespaceManifest(k.namespace, MANAGED)
      && (forall i :: 0 <= i < |cms| ==> IsConfigMapPart(ms[2 + i], k, cms[i], res))
      && (forall i :: 0 <= i < |ss| ==> IsSecretPart(ms[2 + |cms| + i], k, ss[i], res))
      && ms[2 + |cms| + |ss|] == AuthParts(k, res)[0] && ms[3 + |cms| + |ss|] == AuthParts(k, res)[1]
  {
    PartsAt([CappPart(k, c), NamespaceManifest(k.namespace, MANAGED)],
            ConfigMapRefs(c.spec), SecretRefs(c.spec), AuthParts(k, res), k, res);
  }

  /** There is one manifest per reference, in order, between the Capp and its namespace and the log access. */
  lemma AssemblyExact(k: Key, c: Capp, res: Resources)
    requires Assemble(k, c, res).Ok?
    ensures
      var ms := Assemble(k, c, res).value;
      var cms, ss := ConfigMapRefs(c.spec), SecretRefs(c.spec);
      && |ms| == 4 + |cms| + |ss|
      && ms[0] == CappManifest(k, c.labels[MANAGED_BY := "rcs"], c.annotations, c.spec, c.site, c.report)
      && ms[1] == NamespaceManifest(k.namespace, map[MANAGED_BY := "rcs"])
      && (forall i :: 0 <= i < |cms| ==> IsConfigMapPart(ms[2 + i], k, cms[i], res))
      && (forall i :: 0 <= i < |ss| ==> IsSecretPart(ms[2 + |cms| + i], k, ss[i], res))
      && IsLogAccess(ms[2 + |cms| + |ss|], ms[3 + |cms| + |ss|], k, res)
  {
    AssemblyParts(k, c, res);
    AuthPartsIs(k, res);
  }

  lemma PartsAt(head: seq<Manifest>, cms: seq<string>, ss: seq<string>, tail: seq<Manifest>, k: Key, res: Resources)
    requires AllIn(cms, k.namespace, res.configMaps) && AllIn(ss, k.namespace, res.secrets)
    requires |head| == |tail| == 2
    ensures
      var ms := head + (ConfigMapParts(cms, k.namespace, res) + SecretParts(ss, k.namespace, res)) + tail;
      && |ms| == 4 + |cms| + |ss|
      && ms[0] == head[0] && ms[1] == head[1]
      && (forall i :: 0 <= i < |cms| ==> IsConfigMapPart(ms[2 + i], k, cms[i], res))
      && (forall i :: 0 <= i < |ss| ==> IsSecretPart(ms[2 + |cms| + i], k, ss[i], res))
      && ms[2 + |cms| + |ss|] == tail[0] && ms[3 + |cms| + |ss|] == tail[1]
  {
    var ps, qs := ConfigMapParts(cms, k.namespace, res), SecretParts(ss, k.namespace, res);
    ConcatenationAt(head, ps, qs, tail);
    var ms := head + (ps + qs) + tail;
    assert ms[2 + |cms| + |ss| + 1] == tail[1];
    forall i | 0 <= i < |cms|
      ensures IsConfigMapPart(ms[2 + i], k, cms[i], res)
    {
      assert ms[2 + i] == ps[i];
    }
    forall i | 0 <= i < |ss|
      ensures IsSecretPart(ms[2 + |cms| + i], k, ss[i], res)
    {
      assert ms[2 + |cms| + i] == qs[i];
    }
  }

  lemma ConcatenationAt<T>(a: seq<T>, b: seq<T>, c: seq<T>, d: seq<T>)
    ensures var s := a + (b + c) + d;
      && |s| == |a| + |b| + |c| + |d|
      && (forall i :: 0 <= i < |a| ==> s[i] == a[i])
      && (forall i :: 0 <= i < |b| ==> s[|a| + i] == b[i])
      && (forall i :: 0 <= i < |c| ==> s[|a| + |b| + i] == c[i])
      && (forall i :: 0 <= i < |d| ==> s[|a| + |b| + |c| + i] == d[i])
  {
  }

  predicate Labelled(m: Manifest, namespace: string) {
    MANAGED_BY in LabelsOf(m) && LabelsOf(m)[MANAGED_BY] == MANAGED_BY_VALUE && InNamespace(m, namespace)
  }

  lemma VolumePartsLabelled(k: Key, spec: CappSpec, res: Resources)
    requires Resolves(k, spec, res)
    ensures forall m :: m in VolumeParts(k, spec, res) ==> Labelled(m, k.namespace)
  {
    var ps := ConfigMapParts(ConfigMapRefs(spec), k.namespace, res);
    var qs := SecretParts(SecretRefs(spec), k.namespace, res);
    forall m | m in ps + qs
      ensures Labelled(m, k.namespace)
    {
      if m in ps {
        var i :| 0 <= i < |ps| && ps[i] == m;
      } else {
        var i :| 0 <= i < |qs| && qs[i] == m;
      }
    }
  }

  /** Each manifest is labelled as managed, and stands in the Capp's namespace. */
  lemma AssemblyLabelled(k: Key, c: Capp, res: Resources, m: Manifest)
    requires Assemble(k, c, res).Ok? && m in Assemble(k, c, res).value
    ensures Labelled(m, k.namespace)
  {
    VolumePartsLabelled(k, c.spec, res);
    if m !in VolumeParts(k, c.spec, res) {
      assert m in [CappPart(k, c), NamespaceManifest(k.namespace, MANAGED)] || m in AuthParts(k, res);
    }
  }

  /** The manifests do not depend on what changes while the Capp is being synced. */
  predicate SameContent(a: Capp, b: Capp) {
    a.(uid := b.uid, version := b.version, deleting := b.deleting, finalizers := b.finalizers) == b
  }

  lemma SnapshotInsensitive(k: Key, a: Capp, b: Capp, res: Resources)
    requires SameContent(a, b)
    ensures Assemble(k, a, res) == Assemble(k, b, res)
  {
  }

  lemma CappPartFirst(k: Key, c: Capp, res: Resources)
    requires Assemble(k, c, res).Ok?
    ensures |Assemble(k, c, res).value| > 0 && Assemble(k, c, res).value[0] == CappPart(k, c)
  {
  }

  /** Different contents give different lists: the Capp's own manifest shows labels (but the managed-by one),
      annotations, specification and status. */
  lemma ContentShows(k: Key, a: Capp, b: Capp, res: Resources)
    requires Assemble(k, a, res).Ok? && Assemble(k, a, res) == Assemble(k, b, res)
    ensures SameContent(a.(labels := b.labels), b)
    ensures a.labels - {MANAGED_BY} == b.labels - {MANAGED_BY}
  {
    CappPartFirst(k, a, res);
    CappPartFirst(k, b, res);
    assert CappPart(k, a).labels - {MANAGED_BY} == a.labels - {MANAGED_BY};
    assert CappPart(k, b).labels - {MANAGED_BY} == b.labels - {MANAGED_BY};
  }

  /** The places at which the bindings of the roles admin and logs-reader name the user. */
  ghost function LogPlaces(bindings: seq<RoleBinding>, user: string): nat {
    if bindings == [] then 0
    else
      var rb := bindings[0];
      (if rb.role == "admin" || rb.role == "logs-reader" then
         |set j | 0 <= j < |rb.subjects| && rb.subjects[j].name == user|
       else 0) + LogPlaces(bindings[1..], user)
  }

  lemma {:induction false} LogPlacesCounted(bindings: seq<RoleBinding>, user: string)
    ensures NestedCount(bindings, LogSubjects, SubjectName, user) == LogPlaces(bindings, user)
  {
    if bindings != [] {
      var rb := bindings[0];
      if rb.role == "admin" || rb.role == "logs-reader" {
        assert Positions(LogSubjects(rb), SubjectName, user)
            == set j | 0 <= j < |rb.subjects| && rb.subjects[j].name == user;
      } else {
        assert Positions(LogSubjects(rb), SubjectName, user) == {};
      }
      LogPlacesCounted(bindings[1..], user);
    }
  }

  /** The log-access binding names each user as often as the admin and logs-reader bindings list the user. */
  lemma LogUsersCounted(bindings: seq<RoleBinding>, user: string)
    ensures multiset(LogUsers(bindings))[user] == LogPlaces(bindings, user)
  {
    NestedRefsCounted(bindings, LogSubjects, SubjectName, user);
    LogPlacesCounted(bindings, user);
  }

  /** Binding by binding, in the order of the list and of the subjects. */
  lemma LogUsersInOrder(bindings: seq<RoleBinding>)
    ensures LogUsers(bindings)
         == NestedRefs(bindings, (rb: RoleBinding) => if rb.role in ["admin", "logs-reader"] then rb.subjects else [],
                       (x: Subject) => Some(x.name))
  {
    SamePicks(bindings, LogSubjects, SubjectName,
              (rb: RoleBinding) => if rb.role in ["admin", "logs-reader"] then rb.subjects else [],
              (x: Subject) => Some(x.name));
  }

  /* ----- The program ----- */

  /** `labels` is the caller's label map, which the built Capp shares. */
  method BuildCapp(k: Key, c: Capp, labels: StringMap?) returns (m: Manifest)
    requires c.labels == if labels != null then labels.entries else map[]
    modifies labels
    ensures m == CappPart(k, c)
    ensures m == CappManifest(k, c.labels[MANAGED_BY := "rcs"], c.annotations, c.spec, c.site, c.report)
    ensures labels != null ==> labels.entries == old(labels.entries)[MANAGED_BY := MANAGED_BY_VALUE]
  {
    var cappLabels := new StringMap(map[]);
    if labels != null {
      cappLabels := labels;
    }
    cappLabels.entries := cappLabels.entries[MANAGED_BY := MANAGED_BY_VALUE];
    m := CappManifest(k, cappLabels.entries, c.annotations, c.spec, c.site, c.report);
  }

  /** Where a walk over references stops: at its end, or at the first one that dangles. */
  predicate StopsAt<V>(names: seq<string>, i: nat, namespace: string, objects: map<Key, V>) {
    && i <= |names| && AllIn(names[..i], namespace, objects)
    && (i < |names| ==> Key(namespace, names[i]) !in objects)
  }

  lemma AllInNext<V>(names: seq<string>, i: nat, namespace: string, objects: map<Key, V>)
    requires i < |names| && AllIn(names[..i], namespace, objects) && Key(namespace, names[i]) in objects
    ensures AllIn(names[..i + 1], namespace, objects)
  {
    assert names[..i + 1] == names[..i] + [names[i]];
  }

  lemma ConfigMapPartsNext(names: seq<string>, i: nat, namespace: string, res: Resources)
    requires i < |names| && AllIn(names[..i], namespace, res.configMaps) && Key(namespace, names[i]) in res.configMaps
    ensures AllIn(names[..i + 1], namespace, res.configMaps)
    ensures var k := Key(namespace, names[i]);
      ConfigMapParts(names[..i + 1], namespace, res)
      == ConfigMapParts(names[..i], namespace, res) + [ConfigMapManifest(k, MANAGED, res.configMaps[k])]
  {
    AllInNext(names, i, namespace, res.configMaps);
    assert forall j :: 0 <= j < i ==> names[..i + 1][j] == names[..i][j];
  }

  lemma SecretPartsNext(names: seq<string>, i: nat, namespace: string, res: Resources)
    requires i < |names| && AllIn(names[..i], namespace, res.secrets) && Key(namespace, names[i]) in res.secrets
    ensures AllIn(names[..i + 1], namespace, res.secrets)
    ensures var k := Key(namespace, names[i]);
      SecretParts(names[..i + 1], namespace, res)
      == SecretParts(names[..i], namespace, res)
         + [SecretManifest(k, MANAGED, res.secrets[k].data, res.secrets[k].secretType)]
  {
    AllInNext(names, i, namespace, res.secrets);
    assert forall j :: 0 <= j < i ==> names[..i + 1][j] == names[..i][j];
  }

  /** On an error, the manifests made so far are returned with it. */
  method CreateConfigMapManifests(names: seq<string>, namespace: string, res: Resources)
    returns (manifests: seq<Manifest>, ok: bool)
    ensures ok <==> AllIn(names, namespace, res.configMaps)
    ensures StopsAt(names, |manifests|, namespace, res.configMaps) && (ok <==> |manifests| == |names|)
    ensures manifests == ConfigMapParts(names[..|manifests|], namespace, res)
  {
    manifests := [];
    for i := 0 to |names|
      invariant |manifests| == i && AllIn(names[..i], namespace, res.configMaps)
      invariant manifests == ConfigMapParts(names[..i], namespace, res)
    {
      var k := Key(namespace, names[i]);
      if k !in res.configMaps {
        return manifests, false;
      }
      ConfigMapPartsNext(names, i, namespace, res);
      manifests := manifests + [ConfigMapManifest(k, MANAGED, res.configMaps[k])];
    }
    assert names[..|names|] == names;
    return manifests, true;
  }

  method CreateSecretManifests(names: seq<string>, namespace: string, res: Resources)
    returns (manifests: seq<Manifest>, ok: bool)
    ensures ok <==> AllIn(names, namespace, res.secrets)
    ensures StopsAt(names, |manifests|, namespace, res.secrets) && (ok <==> |manifests| == |names|)
    ensures manifests == SecretParts(names[..|manifests|], namespace, res)
  {
    manifests := [];
    for i := 0 to |names|
      invariant |manifests| == i && AllIn(names[..i], namespace, res.secrets)
      invariant manifests == SecretParts(names[..i], namespace, res)
    {
      var k := Key(namespace, names[i]);
      if k !in res.secrets {
        return manifests, false;
      }
      SecretPartsNext(names, i, namespace, res);
      manifests := manifests + [SecretManifest(k, MANAGED, res.secrets[k].data, res.secrets[k].secretType)];
    }
    assert names[..|names|] == names;
    return manifests, true;
  }

  /** On an error, the ConfigMaps are returned with it when all of them were found. */
  method AssembleVolumes(k: Key, c: Capp, res: Resources) returns (manifests: seq<Manifest>, ok: bool)
    ensures ok <==> Resolves(k, c.spec, res)
    ensures ok ==> manifests == VolumeParts(k, c.spec, res)
    ensures !ok ==>
      manifests == if AllIn(ConfigMapRefs(c.spec), k.namespace, res.configMaps)
                   then ConfigMapParts(ConfigMapRefs(c.spec), k.namespace, res) else []
  {
    manifests := [];
    var configMaps, secrets := GetResourceVolumesFromContainerSpec(c.spec);
    assert configMaps[..|configMaps|] == configMaps && secrets[..|secrets|] == secrets;
    var configMapManifests, cmOk := CreateConfigMapManifests(configMaps, k.namespace, res);
    if !cmOk {
      return manifests, false;
    }
    manifests := manifests + configMapManifests;
    assert manifests == configMapManifests;
    var secretManifests, sOk := CreateSecretManifests(secrets, k.namespace, res);
    if !sOk {
      return manifests, false;
    }
    return manifests + secretManifests, true;
  }

  lemma LogUsersNext(bindings: seq<RoleBinding>, i: nat)
    requires i < |bindings|
    ensures LogUsers(bindings[..i + 1]) == LogUsers(bindings[..i]) + Refs(LogSubjects(bindings[i]), SubjectName)
  {
    NestedRefsGrow([], bindings, i, LogSubjects, SubjectName);
    assert [] + LogUsers(bindings[..i]) == LogUsers(bindings[..i]);
    assert [] + LogUsers(bindings[..i + 1]) == LogUsers(bindings[..i + 1]);
  }

  method GetUsersFromNamespace(k: Key, res: Resources) returns (users: seq<string>, ok: bool)
    ensures ok == res.roleBindings.Ok?
    ensures users == if ok then LogUsers(BindingsIn(k.namespace, res)) else []
  {
    users := [];
    if res.roleBindings.Err? {
      return users, false;
    }
    var bindings := BindingsIn(k.namespace, res);
    for i := 0 to |bindings|
      invariant users == LogUsers(bindings[..i])
    {
      var rb := bindings[i];
      LogUsersNext(bindings, i);
      if rb.role != "admin" && rb.role != "logs-reader" {
        continue;
      }
      ghost var users0 := users;
      for j := 0 to |rb.subjects|
        invariant users == users0 + Refs(rb.subjects[..j], SubjectName)
      {
        RefsGrow(users0, rb.subjects, j, SubjectName);
        users := users + [rb.subjects[j].name];
      }
      assert rb.subjects[..|rb.subjects|] == LogSubjects(rb);
    }
    assert bindings[..|bindings|] == bindings;
    return users, true;
  }

  method GenerateSubjectsFromUsers(users: seq<string>) returns (subjects: seq<Subject>)
    ensures subjects == AsUsers(users)
  {
    subjects := [];
    for i := 0 to |users|
      invariant |subjects| == i
      invariant forall j :: 0 <= j < i ==> subjects[j] == Subject("User", users[j])
    {
      subjects := subjects + [Subject("User", users[i])];
    }
  }

  method AssembleAuth(k: Key, res: Resources) returns (manifests: seq<Manifest>, ok: bool)
    ensures ok == res.roleBindings.Ok?
    ensures manifests == if ok then AuthParts(k, res) else []
  {
    manifests := [RoleManifest(LogsReader(k), MANAGED)];
    var users, uOk := GetUsersFromNamespace(k, res);
    if !uOk {
      return [], false;
    }
    var subjects := GenerateSubjectsFromUsers(users);
    manifests := manifests + [RoleBindingManifest(LogsReader(k), MANAGED, LogsReader(k).name, subjects)];
    ok := true;
  }

  /** The director: all the manifests, or an empty list and an error. */
  method AssembleManifests(k: Key, c: Capp, labels: StringMap?, res: Resources)
    returns (manifests: seq<Manifest>, ok: bool)
    requires c.labels == if labels != null then labels.entries else map[]
    modifies labels
    ensures ok == Assemble(k, c, res).Ok?
    ensures manifests == if ok then Assemble(k, c, res).value else []
    ensures labels != null ==> labels.entries == old(labels.entries)[MANAGED_BY := MANAGED_BY_VALUE]
  {
    var cappManifest := BuildCapp(k, c, labels);
    manifests := [cappManifest, NamespaceManifest(k.namespace, MANAGED)];
    var volumes, vOk := AssembleVolumes(k, c, res);
    if !vOk {
      return [], false;
    }
    manifests := manifests + volumes;
    var auth, aOk := AssembleAuth(k, res);
    if !aOk {
      return [], false;
    }
    manifests := manifests + auth;
    ok := true;
  }
}
