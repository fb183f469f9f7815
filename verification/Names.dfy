/** ManifestWork names, and when two Capps get the same one. */
module Names {
  import opened Objects

  const PREFIX := "mw-create-"

  function WorkName(k: Key): string {
    PREFIX + k.namespace + "-" + k.name
  }

  /** `far` has the longer namespace: it extends `near`'s by "-s", and `near`'s name starts with "s-". */
  ghost predicate Shifted(near: Key, far: Key) {
    exists s: string :: far.namespace == near.namespace + "-" + s && near.name == s + "-" + far.name
  }

  /** No two Capps of the set share a ManifestWork name. */
  ghost predicate NoCollision(keys: set<Key>) {
    forall a, b :: a in keys && b in keys && WorkName(a) == WorkName(b) ==> a == b
  }

  lemma SameNameSameTail(a: Key, b: Key)
    requires WorkName(a) == WorkName(b)
    ensures a.namespace + "-" + a.name == b.namespace + "-" + b.name
  {
    var ta, tb := a.namespace + "-" + a.name, b.namespace + "-" + b.name;
    assert WorkName(a) == PREFIX + ta && WorkName(b) == PREFIX + tb;
    assert WorkName(a)[|PREFIX|..] == ta && WorkName(b)[|PREFIX|..] == tb;
  }

  lemma LongerNamespaceIsShifted(near: Key, far: Key)
    requires near.namespace + "-" + near.name == far.namespace + "-" + far.name
    requires |near.namespace| < |far.namespace|
    ensures Shifted(near, far)
  {
    var t := near.namespace + "-" + near.name;
    var u := far.namespace + "-" + far.name;
    var n, m := |near.namespace|, |far.namespace|;
    var s := far.namespace[n + 1..];
    assert far.namespace == u[..m] && near.namespace == t[..n] && t[n] == '-' && u[m] == '-';
    assert far.namespace == near.namespace + "-" + s;
    assert near.name == t[n + 1..] == u[n + 1..m] + u[m..];
    assert near.name == s + "-" + far.name;
  }

  lemma SameLengthSameKey(a: Key, b: Key)
    requires a.namespace + "-" + a.name == b.namespace + "-" + b.name
    requires |a.namespace| == |b.namespace|
    ensures a == b
  {
    var t, u := a.namespace + "-" + a.name, b.namespace + "-" + b.name;
    assert a.namespace == t[..|a.namespace|] && b.namespace == u[..|b.namespace|];
    assert a.name == t[|a.namespace| + 1..] && b.name == u[|b.namespace| + 1..];
  }

  /** Two different Capps collide exactly when a "-s" can be moved from a name to a namespace. */
  lemma CollisionIffShifted(a: Key, b: Key)
    requires a != b
    ensures WorkName(a) == WorkName(b) <==> Shifted(a, b) || Shifted(b, a)
  {
    if WorkName(a) == WorkName(b) {
      SameNameSameTail(a, b);
      if |a.namespace| == |b.namespace| {
        SameLengthSameKey(a, b);
      } else if |a.namespace| < |b.namespace| {
        LongerNamespaceIsShifted(a, b);
      } else {
        LongerNamespaceIsShifted(b, a);
      }
    }
    if Shifted(a, b) { ShiftedCollide(a, b); }
    if Shifted(b, a) { ShiftedCollide(b, a); }
  }

  lemma ShiftedCollide(near: Key, far: Key)
    requires Shifted(near, far)
    ensures WorkName(near) == WorkName(far)
  {
    var s :| far.namespace == near.namespace + "-" + s && near.name == s + "-" + far.name;
    assert WorkName(far) == PREFIX + near.namespace + "-" + s + "-" + far.name;
    assert WorkName(near) == WorkName(far);
  }

  /** One namespace, or namespaces without hyphens, discharge the no-collision assumption. */
  lemma CollisionFreeKeys(keys: set<Key>)
    requires (forall a, b :: a in keys && b in keys ==> a.namespace == b.namespace)
             || (forall a :: a in keys ==> '-' !in a.namespace)
    ensures NoCollision(keys)
  {
    forall a, b | a in keys && b in keys && a != b
      ensures WorkName(a) != WorkName(b)
    {
      CollisionIffShifted(a, b);
      if Shifted(a, b) { ShiftedHasHyphen(a, b); }
      if Shifted(b, a) { ShiftedHasHyphen(b, a); }
    }
  }

  lemma ShiftedHasHyphen(near: Key, far: Key)
    requires Shifted(near, far)
    ensures near.namespace != far.namespace && '-' in far.namespace
  {
    var s :| far.namespace == near.namespace + "-" + s && near.name == s + "-" + far.name;
    assert far.namespace[|near.namespace|] == '-';
  }
}
