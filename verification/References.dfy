/** The walks that collect the ConfigMaps and Secrets a Capp refers to. */
module References {
  import opened Objects

  /* ----- Specification: the references in order, and where they stand ----- */

  function OfOption(o: Option<string>): seq<string> {
    match o
    case Some(n) => [n]
    case None => []
  }

  /** The names picked from a list, in order and with repetitions. */
  function Refs<T>(xs: seq<T>, pick: T -> Option<string>): seq<string> {
    if xs == [] then [] else OfOption(pick(xs[0])) + Refs(xs[1..], pick)
  }

  /** The names picked from the items of every owner. */
  function NestedRefs<C, T>(cs: seq<C>, items: C -> seq<T>, pick: T -> Option<string>): seq<string> {
    if cs == [] then [] else Refs(items(cs[0]), pick) + NestedRefs(cs[1..], items, pick)
  }

  /** The positions at which a list refers to `n`. */
  ghost function Positions<T>(xs: seq<T>, pick: T -> Option<string>, n: string): set<int> {
    set j | 0 <= j < |xs| && pick(xs[j]) == Some(n)
  }

  /** The number of positions, over the items of all owners, that refer to `n`. */
  ghost function NestedCount<C, T>(cs: seq<C>, items: C -> seq<T>, pick: T -> Option<string>, n: string): nat {
    if cs == [] then 0 else |Positions(items(cs[0]), pick, n)| + NestedCount(cs[1..], items, pick, n)
  }

  lemma {:induction false} RefsAppend<T>(a: seq<T>, b: seq<T>, pick: T -> Option<string>)
    ensures Refs(a + b, pick) == Refs(a, pick) + Refs(b, pick)
  {
    if a == [] {
      assert a + b == b;
    } else {
      RefsAppend(a[1..], b, pick);
      assert (a + b)[1..] == a[1..] + b;
    }
  }

  lemma Regrouped(a: seq<string>, b: seq<string>, c: seq<string>)
    ensures a + (b + c) == a + b + c
  {
  }

  /** Gathering is a homomorphism: walking two lists of containers one after the other is walking their
      concatenation. */
  lemma {:induction false} NestedRefsAppend<C, T>(a: seq<C>, b: seq<C>, items: C -> seq<T>, pick: T -> Option<string>)
    ensures NestedRefs(a + b, items, pick) == NestedRefs(a, items, pick) + NestedRefs(b, items, pick)
  {
    if a == [] {
      assert a + b == b;
    } else {
      NestedRefsAppend(a[1..], b, items, pick);
      assert (a + b)[1..] == a[1..] + b;
      Regrouped(Refs(items(a[0]), pick), NestedRefs(a[1..], items, pick), NestedRefs(b, items, pick));
    }
  }

  lemma RefsNext<T>(xs: seq<T>, j: nat, pick: T -> Option<string>)
    requires j < |xs|
    ensures Refs(xs[..j + 1], pick) == Refs(xs[..j], pick) + OfOption(pick(xs[j]))
  {
    assert xs[..j + 1] == xs[..j] + [xs[j]];
    RefsAppend(xs[..j], [xs[j]], pick);
  }

  lemma RefsGrow<T>(pre: seq<string>, xs: seq<T>, j: nat, pick: T -> Option<string>)
    requires j < |xs|
    ensures pre + Refs(xs[..j + 1], pick) == pre + Refs(xs[..j], pick) + OfOption(pick(xs[j]))
  {
    RefsNext(xs, j, pick);
  }

  lemma NestedRefsGrow<C, T>(pre: seq<string>, cs: seq<C>, i: nat, items: C -> seq<T>, pick: T -> Option<string>)
    requires i < |cs|
    ensures pre + NestedRefs(cs[..i + 1], items, pick)
         == pre + NestedRefs(cs[..i], items, pick) + Refs(items(cs[i]), pick)
  {
    assert cs[..i + 1] == cs[..i] + [cs[i]];
    NestedRefsAppend(cs[..i], [cs[i]], items, pick);
    assert [cs[i]][1..] == [];
  }

  lemma PositionsNext<T>(xs: seq<T>, last: nat, pick: T -> Option<string>, n: string)
    requires last + 1 == |xs|
    ensures |Positions(xs, pick, n)| == |Positions(xs[..last], pick, n)| + multiset(OfOption(pick(xs[last])))[n]
  {
    var before := Positions(xs[..last], pick, n);
    assert last !in before;
    if pick(xs[last]) == Some(n) {
      assert Positions(xs, pick, n) == before + {last};
    } else {
      assert Positions(xs, pick, n) == before;
    }
  }

  /** A name occurs among the references exactly as often as there are positions referring to it. */
  lemma {:induction false} RefsCounted<T>(xs: seq<T>, pick: T -> Option<string>, n: string)
    ensures multiset(Refs(xs, pick))[n] == |Positions(xs, pick, n)|
  {
    if xs == [] {
      assert Positions(xs, pick, n) == {};
    } else {
      var last := |xs| - 1;
      RefsCounted(xs[..last], pick, n);
      RefsNext(xs, last, pick);
      assert xs[..last + 1] == xs;
      PositionsNext(xs, last, pick, n);
    }
  }

  lemma {:induction false} NestedRefsCounted<C, T>(cs: seq<C>, items: C -> seq<T>, pick: T -> Option<string>, n: string)
    ensures multiset(NestedRefs(cs, items, pick))[n] == NestedCount(cs, items, pick, n)
  {
    if cs != [] {
      RefsCounted(items(cs[0]), pick, n);
      NestedRefsCounted(cs[1..], items, pick, n);
    }
  }

  /* ----- What is walked ----- */

  function EnvFromOf(c: Container): seq<EnvFrom> { c.envFrom }
  function EnvOf(c: Container): seq<EnvVar> { c.env }
  function EnvFromConfigMap(e: EnvFrom): Option<string> { e.configMapRef }
  function EnvFromSecret(e: EnvFrom): Option<string> { e.secretRef }
  function EnvConfigMap(e: EnvVar): Option<string> {
    if e.valueFrom.Some? then e.valueFrom.value.configMapKeyRef else None
  }
  function EnvSecret(e: EnvVar): Option<string> {
    if e.valueFrom.Some? then e.valueFrom.value.secretKeyRef else None
  }
  function VolumeConfigMap(v: Volume): Option<string> { v.configMap }
  function VolumeSecret(v: Volume): Option<string> { v.secret }
  function PullSecret(name: string): Option<string> { Some(name) }

  function ConfigMapRefs(spec: CappSpec): seq<string> {
    NestedRefs(spec.containers, EnvFromOf, EnvFromConfigMap)
    + NestedRefs(spec.containers, EnvOf, EnvConfigMap)
    + Refs(spec.volumes, VolumeConfigMap)
  }

  function SecretRefs(spec: CappSpec): seq<string> {
    NestedRefs(spec.containers, EnvFromOf, EnvFromSecret)
    + NestedRefs(spec.containers, EnvOf, EnvSecret)
    + Refs(spec.volumes, VolumeSecret)
    + spec.imagePullSecrets
  }

  /* ----- The same in the fields themselves ----- */

  ghost function EnvFromConfigMapPlaces(cs: seq<Container>, n: string): nat {
    if cs == [] then 0
    else |set j | 0 <= j < |cs[0].envFrom| && cs[0].envFrom[j].configMapRef == Some(n)|
         + EnvFromConfigMapPlaces(cs[1..], n)
  }

  ghost function EnvFromSecretPlaces(cs: seq<Container>, n: string): nat {
    if cs == [] then 0
    else |set j | 0 <= j < |cs[0].envFrom| && cs[0].envFrom[j].secretRef == Some(n)|
         + EnvFromSecretPlaces(cs[1..], n)
  }

  ghost function EnvConfigMapPlaces(cs: seq<Container>, n: string): nat {
    if cs == [] then 0
    else |set j | 0 <= j < |cs[0].env| && cs[0].env[j].valueFrom.Some?
                      && cs[0].env[j].valueFrom.value.configMapKeyRef == Some(n)|
         + EnvConfigMapPlaces(cs[1..], n)
  }

  ghost function EnvSecretPlaces(cs: seq<Container>, n: string): nat {
    if cs == [] then 0
    else |set j | 0 <= j < |cs[0].env| && cs[0].env[j].valueFrom.Some?
                      && cs[0].env[j].valueFrom.value.secretKeyRef == Some(n)|
         + EnvSecretPlaces(cs[1..], n)
  }

  /** The places of a specification that name the ConfigMap `n`. */
  ghost function ConfigMapPlaces(spec: CappSpec, n: string): nat {
    EnvFromConfigMapPlaces(spec.containers, n) + EnvConfigMapPlaces(spec.containers, n)
    + |set j | 0 <= j < |spec.volumes| && spec.volumes[j].configMap == Some(n)|
  }

  /** The places of a specification that name the Secret `n`. */
  ghost function SecretPlaces(spec: CappSpec, n: string): nat {
    EnvFromSecretPlaces(spec.containers, n) + EnvSecretPlaces(spec.containers, n)
    + |set j | 0 <= j < |spec.volumes| && spec.volumes[j].secret == Some(n)|
    + |set j | 0 <= j < |spec.imagePullSecrets| && spec.imagePullSecrets[j] == n|
  }

  lemma {:induction false} EnvFromConfigMapPlacesCounted(cs: seq<Container>, n: string)
    ensures NestedCount(cs, EnvFromOf, EnvFromConfigMap, n) == EnvFromConfigMapPlaces(cs, n)
  {
    if cs != [] {
      assert Positions(EnvFromOf(cs[0]), EnvFromConfigMap, n)
          == set j | 0 <= j < |cs[0].envFrom| && cs[0].envFrom[j].configMapRef == Some(n);
      EnvFromConfigMapPlacesCounted(cs[1..], n);
    }
  }

  lemma {:induction false} EnvFromSecretPlacesCounted(cs: seq<Container>, n: string)
    ensures NestedCount(cs, EnvFromOf, EnvFromSecret, n) == EnvFromSecretPlaces(cs, n)
  {
    if cs != [] {
      assert Positions(EnvFromOf(cs[0]), EnvFromSecret, n)
          == set j | 0 <= j < |cs[0].envFrom| && cs[0].envFrom[j].secretRef == Some(n);
      EnvFromSecretPlacesCounted(cs[1..], n);
    }
  }

  lemma {:induction false} EnvConfigMapPlacesCounted(cs: seq<Container>, n: string)
    ensures NestedCount(cs, EnvOf, EnvConfigMap, n) == EnvConfigMapPlaces(cs, n)
  {
    if cs != [] {
      assert Positions(EnvOf(cs[0]), EnvConfigMap, n)
          == set j | 0 <= j < |cs[0].env| && cs[0].env[j].valueFrom.Some?
                      && cs[0].env[j].valueFrom.value.configMapKeyRef == Some(n);
      EnvConfigMapPlacesCounted(cs[1..], n);
    }
  }

  lemma {:induction false} EnvSecretPlacesCounted(cs: seq<Container>, n: string)
    ensures NestedCount(cs, EnvOf, EnvSecret, n) == EnvSecretPlaces(cs, n)
  {
    if cs != [] {
      assert Positions(EnvOf(cs[0]), EnvSecret, n)
          == set j | 0 <= j < |cs[0].env| && cs[0].env[j].valueFrom.Some?
                      && cs[0].env[j].valueFrom.value.secretKeyRef == Some(n);
      EnvSecretPlacesCounted(cs[1..], n);
    }
  }

  lemma VolumeTotals(spec: CappSpec, n: string)
    ensures |Positions(spec.volumes, VolumeConfigMap, n)|
         == |set j | 0 <= j < |spec.volumes| && spec.volumes[j].configMap == Some(n)|
    ensures |Positions(spec.volumes, VolumeSecret, n)|
         == |set j | 0 <= j < |spec.volumes| && spec.volumes[j].secret == Some(n)|
    ensures |Positions(spec.imagePullSecrets, PullSecret, n)|
         == |set j | 0 <= j < |spec.imagePullSecrets| && spec.imagePullSecrets[j] == n|
  {
    assert Positions(spec.volumes, VolumeConfigMap, n)
        == set j | 0 <= j < |spec.volumes| && spec.volumes[j].configMap == Some(n);
    assert Positions(spec.volumes, VolumeSecret, n)
        == set j | 0 <= j < |spec.volumes| && spec.volumes[j].secret == Some(n);
    assert Positions(spec.imagePullSecrets, PullSecret, n)
        == set j | 0 <= j < |spec.imagePullSecrets| && spec.imagePullSecrets[j] == n;
  }

  /** Sound, complete and counted: nothing is invented, dropped or merged. */
  lemma ReferencesCounted(spec: CappSpec, n: string)
    ensures multiset(ConfigMapRefs(spec))[n] == ConfigMapPlaces(spec, n)
    ensures multiset(SecretRefs(spec))[n] == SecretPlaces(spec, n)
  {
    ConfigMapsCounted(spec, n);
    SecretsCounted(spec, n);
  }

  lemma ConfigMapsCounted(spec: CappSpec, n: string)
    ensures multiset(ConfigMapRefs(spec))[n] == ConfigMapPlaces(spec, n)
  {
    NestedRefsCounted(spec.containers, EnvFromOf, EnvFromConfigMap, n);
    NestedRefsCounted(spec.containers, EnvOf, EnvConfigMap, n);
    RefsCounted(spec.volumes, VolumeConfigMap, n);
    EnvFromConfigMapPlacesCounted(spec.containers, n);
    EnvConfigMapPlacesCounted(spec.containers, n);
    VolumeTotals(spec, n);
  }

  lemma SecretsCounted(spec: CappSpec, n: string)
    ensures multiset(SecretRefs(spec))[n] == SecretPlaces(spec, n)
  {
    NestedRefsCounted(spec.containers, EnvFromOf, EnvFromSecret, n);
    NestedRefsCounted(spec.containers, EnvOf, EnvSecret, n);
    RefsCounted(spec.volumes, VolumeSecret, n);
    RefsCounted(spec.imagePullSecrets, PullSecret, n);
    AllPicked(spec.imagePullSecrets);
    EnvFromSecretPlacesCounted(spec.containers, n);
    EnvSecretPlacesCounted(spec.containers, n);
    VolumeTotals(spec, n);
  }

  lemma {:induction false} SamePicks<C(!new), T(!new)>(cs: seq<C>, items: C -> seq<T>, pick: T -> Option<string>,
                                                       items': C -> seq<T>, pick': T -> Option<string>)
    requires (forall c: C :: items(c) == items'(c)) && (forall x: T :: pick(x) == pick'(x))
    ensures NestedRefs(cs, items, pick) == NestedRefs(cs, items', pick')
  {
    if cs != [] {
      SameRefs(items(cs[0]), pick, pick');
      SamePicks(cs[1..], items, pick, items', pick');
    }
  }

  lemma {:induction false} SameRefs<T(!new)>(xs: seq<T>, pick: T -> Option<string>, pick': T -> Option<string>)
    requires forall x: T :: pick(x) == pick'(x)
    ensures Refs(xs, pick) == Refs(xs, pick')
  {
    if xs != [] {
      SameRefs(xs[1..], pick, pick');
    }
  }

  /** The order: first all of envFrom, then all of valueFrom, container by container, then the volumes and, for Secrets,
      the image pull secrets. */
  lemma ReferencesInOrder(spec: CappSpec)
    ensures ConfigMapRefs(spec)
         == NestedRefs(spec.containers, (c: Container) => c.envFrom, (e: EnvFrom) => e.configMapRef)
            + NestedRefs(spec.containers, (c: Container) => c.env,
                         (e: EnvVar) => if e.valueFrom.Some? then e.valueFrom.value.configMapKeyRef else None)
            + Refs(spec.volumes, (v: Volume) => v.configMap)
    ensures SecretRefs(spec)
         == NestedRefs(spec.containers, (c: Container) => c.envFrom, (e: EnvFrom) => e.secretRef)
            + NestedRefs(spec.containers, (c: Container) => c.env,
                         (e: EnvVar) => if e.valueFrom.Some? then e.valueFrom.value.secretKeyRef else None)
            + Refs(spec.volumes, (v: Volume) => v.secret)
            + spec.imagePullSecrets
  {
    SamePicks(spec.containers, EnvFromOf, EnvFromConfigMap,
              (c: Container) => c.envFrom, (e: EnvFrom) => e.configMapRef);
    SamePicks(spec.containers, EnvOf, EnvConfigMap, (c: Container) => c.env,
              (e: EnvVar) => if e.valueFrom.Some? then e.valueFrom.value.configMapKeyRef else None);
    SameRefs(spec.volumes, VolumeConfigMap, (v: Volume) => v.configMap);
    SamePicks(spec.containers, EnvFromOf, EnvFromSecret, (c: Container) => c.envFrom, (e: EnvFrom) => e.secretRef);
    SamePicks(spec.containers, EnvOf, EnvSecret, (c: Container) => c.env,
              (e: EnvVar) => if e.valueFrom.Some? then e.valueFrom.value.secretKeyRef else None);
    SameRefs(spec.volumes, VolumeSecret, (v: Volume) => v.secret);
  }

  lemma {:induction false} AllPicked(names: seq<string>)
    ensures Refs(names, PullSecret) == names
  {
    if names != [] {
      AllPicked(names[1..]);
    }
  }

  /* ----- The walks ----- */

  method GatherConfigEnvFrom(containers: seq<Container>, configMaps: seq<string>, secrets: seq<string>)
    returns (cs: seq<string>, ss: seq<string>)
    ensures cs == configMaps + NestedRefs(containers, EnvFromOf, EnvFromConfigMap)
    ensures ss == secrets + NestedRefs(containers, EnvFromOf, EnvFromSecret)
  {
    cs, ss := configMaps, secrets;
    for i := 0 to |containers|
      invariant cs == configMaps + NestedRefs(containers[..i], EnvFromOf, EnvFromConfigMap)
      invariant ss == secrets + NestedRefs(containers[..i], EnvFromOf, EnvFromSecret)
    {
      var es := containers[i].envFrom;
      ghost var cs0, ss0 := cs, ss;
      for j := 0 to |es|
        invariant cs == cs0 + Refs(es[..j], EnvFromConfigMap)
        invariant ss == ss0 + Refs(es[..j], EnvFromSecret)
      {
        RefsGrow(cs0, es, j, EnvFromConfigMap);
        RefsGrow(ss0, es, j, EnvFromSecret);
        if es[j].configMapRef.Some? {
          cs := cs + [es[j].configMapRef.value];
        }
        if es[j].secretRef.Some? {
          ss := ss + [es[j].secretRef.value];
        }
      }
      assert es[..|es|] == EnvFromOf(containers[i]);
      NestedRefsGrow(configMaps, containers, i, EnvFromOf, EnvFromConfigMap);
      NestedRefsGrow(secrets, containers, i, EnvFromOf, EnvFromSecret);
    }
    assert containers[..|containers|] == containers;
  }

  method GatherConfigValueFrom(containers: seq<Container>, configMaps: seq<string>, secrets: seq<string>)
    returns (cs: seq<string>, ss: seq<string>)
    ensures cs == configMaps + NestedRefs(containers, EnvOf, EnvConfigMap)
    ensures ss == secrets + NestedRefs(containers, EnvOf, EnvSecret)
  {
    cs, ss := configMaps, secrets;
    for i := 0 to |containers|
      invariant cs == configMaps + NestedRefs(containers[..i], EnvOf, EnvConfigMap)
      invariant ss == secrets + NestedRefs(containers[..i], EnvOf, EnvSecret)
    {
      var es := containers[i].env;
      ghost var cs0, ss0 := cs, ss;
      for j := 0 to |es|
        invariant cs == cs0 + Refs(es[..j], EnvConfigMap)
        invariant ss == ss0 + Refs(es[..j], EnvSecret)
      {
        ghost var cs1, ss1 := cs, ss;
        if es[j].valueFrom.Some? {
          var source := es[j].valueFrom.value;
          if source.configMapKeyRef.Some? {
            cs := cs + [source.configMapKeyRef.value];
          }
          if source.secretKeyRef.Some? {
            ss := ss + [source.secretKeyRef.value];
          }
        }
        assert cs == cs1 + OfOption(EnvConfigMap(es[j]));
        assert ss == ss1 + OfOption(EnvSecret(es[j]));
        RefsGrow(cs0, es, j, EnvConfigMap);
        RefsGrow(ss0, es, j, EnvSecret);
      }
      assert es[..|es|] == EnvOf(containers[i]);
      NestedRefsGrow(configMaps, containers, i, EnvOf, EnvConfigMap);
      NestedRefsGrow(secrets, containers, i, EnvOf, EnvSecret);
    }
    assert containers[..|containers|] == containers;
  }

  method GatherConfigVolumes(volumes: seq<Volume>, configMaps: seq<string>, secrets: seq<string>)
    returns (cs: seq<string>, ss: seq<string>)
    ensures cs == configMaps + Refs(volumes, VolumeConfigMap)
    ensures ss == secrets + Refs(volumes, VolumeSecret)
  {
    cs, ss := configMaps, secrets;
    for i := 0 to |volumes|
      invariant cs == configMaps + Refs(volumes[..i], VolumeConfigMap)
      invariant ss == secrets + Refs(volumes[..i], VolumeSecret)
    {
      RefsGrow(configMaps, volumes, i, VolumeConfigMap);
      RefsGrow(secrets, volumes, i, VolumeSecret);
      if volumes[i].configMap.Some? {
        cs := cs + [volumes[i].configMap.value];
      }
      if volumes[i].secret.Some? {
        ss := ss + [volumes[i].secret.value];
      }
    }
    assert volumes[..|volumes|] == volumes;
  }

  lemma TakeNext<T>(pre: seq<T>, xs: seq<T>, i: nat)
    requires i < |xs|
    ensures pre + xs[..i + 1] == pre + xs[..i] + [xs[i]]
  {
    assert xs[..i + 1] == xs[..i] + [xs[i]];
  }

  lemma AfterNothing<T>(xs: seq<T>)
    ensures [] + xs == xs
  {
  }

  method GetResourceVolumesFromContainerSpec(spec: CappSpec) returns (cs: seq<string>, ss: seq<string>)
    ensures cs == ConfigMapRefs(spec) && ss == SecretRefs(spec)
    ensures forall n :: multiset(cs)[n] == ConfigMapPlaces(spec, n) && multiset(ss)[n] == SecretPlaces(spec, n)
  {
    forall n
      ensures multiset(ConfigMapRefs(spec))[n] == ConfigMapPlaces(spec, n)
      ensures multiset(SecretRefs(spec))[n] == SecretPlaces(spec, n)
    {
      ReferencesCounted(spec, n);
    }
    cs, ss := GatherConfigEnvFrom(spec.containers, [], []);
    AfterNothing(NestedRefs(spec.containers, EnvFromOf, EnvFromConfigMap));
    AfterNothing(NestedRefs(spec.containers, EnvFromOf, EnvFromSecret));
    cs, ss := GatherConfigValueFrom(spec.containers, cs, ss);
    cs, ss := GatherConfigVolumes(spec.volumes, cs, ss);
    var names := spec.imagePullSecrets;
    ghost var ss0 := ss;
    for i := 0 to |names|
      invariant ss == ss0 + names[..i]
    {
      TakeNext(ss0, names, i);
      ss := ss + [names[i]];
    }
    assert names[..|names|] == names;
  }
}
