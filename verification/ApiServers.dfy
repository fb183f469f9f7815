/** The API server as an object, for calls that are not interrupted. */
module ApiServers {
  import opened Objects
  import opened Names
  import opened Admission
  import Shards
  import opened Systems

  /** Nothing changed but what belongs to one Capp. */
  ghost predicate Framed(a: Store, b: Store, k: Key) {
    && b.capps - {k} == a.capps - {k}
    && (forall wk: WorkKey :: wk.name != WorkName(k) ==>
          (wk in b.works <==> wk in a.works) && (wk in a.works ==> b.works[wk] == a.works[wk]))
  }

  lemma FramedTwice(a: Store, b: Store, c: Store, k: Key)
    requires Framed(a, b, k) && Framed(b, c, k)
    ensures Framed(a, c, k)
  {
  }

  /** A framed change is the replacement of the Capp's part. */
  lemma FramedIsWith(a: Store, b: Store, k: Key)
    requires Framed(a, b, k)
    ensures b == With(a, k, ShardOf(b, k))
  {
    FramedWorks(a.works, b.works, WorkName(k));
    FramedCapps(a, b, k);
  }

  lemma FramedWorks(a: map<WorkKey, Work>, b: map<WorkKey, Work>, name: string)
    requires forall wk: WorkKey :: wk.name != name ==> (wk in b <==> wk in a) && (wk in a ==> b[wk] == a[wk])
    ensures Replaced(a, name, Named(b, name)) == b
  {
    var all := Replaced(a, name, Named(b, name));
    forall wk
      ensures (wk in all <==> wk in b) && (wk in b ==> all[wk] == b[wk])
    {
      FramedWork(a, b, name, wk);
    }
  }

  lemma FramedWork(a: map<WorkKey, Work>, b: map<WorkKey, Work>, name: string, wk: WorkKey)
    requires wk.name != name ==> (wk in b <==> wk in a) && (wk in a ==> b[wk] == a[wk])
    ensures var all := Replaced(a, name, Named(b, name));
      (wk in all <==> wk in b) && (wk in b ==> all[wk] == b[wk])
  {
    var own := Named(b, name);
    if wk.name != name {
      OtherReplaced(a, name, own, wk);
    } else {
      var all := Replaced(a, name, own);
      assert wk == WorkKey(wk.cluster, name);
      NamedReplaced(a, name, own);
      InNamed(all, name, wk.cluster);
      InNamed(b, name, wk.cluster);
    }
  }

  lemma FramedCapps(a: Store, b: Store, k: Key)
    requires Framed(a, b, k)
    ensures b.capps == if k in b.capps then a.capps[k := b.capps[k]] else a.capps - {k}
  {
    forall j | j != k
      ensures (j in b.capps <==> j in a.capps) && (j in a.capps ==> b.capps[j] == a.capps[j])
    {
      assert j in b.capps - {k} <==> j in b.capps;
      assert j in a.capps - {k} <==> j in a.capps;
      if j in a.capps { assert (a.capps - {k})[j] == (b.capps - {k})[j]; }
    }
  }

  lemma NamedSet(works: map<WorkKey, Work>, name: string, cluster: string, w: Work)
    ensures Named(works[WorkKey(cluster, name) := w], name) == Named(works, name)[cluster := w]
  {
    var all := works[WorkKey(cluster, name) := w];
    forall c
      ensures c in Named(all, name) <==> c in Named(works, name)[cluster := w]
      ensures c in Named(all, name) ==> Named(works, name)[cluster := w][c] == Named(all, name)[c]
    {
      InNamed(all, name, c);
      InNamed(works, name, c);
    }
    SameWorks(Named(works, name)[cluster := w], Named(all, name));
  }

  lemma NamedRemoved(works: map<WorkKey, Work>, name: string, cluster: string)
    ensures Named(works - {WorkKey(cluster, name)}, name) == Named(works, name) - {cluster}
  {
    var all := works - {WorkKey(cluster, name)};
    forall c
      ensures c in Named(all, name) <==> c in Named(works, name) - {cluster}
      ensures c in Named(all, name) ==> (Named(works, name) - {cluster})[c] == Named(all, name)[c]
    {
      InNamed(all, name, c);
      InNamed(works, name, c);
    }
    SameWorks(Named(works, name) - {cluster}, Named(all, name));
  }

  function WithWork(st: Store, k: Key, cluster: string, w: Work): Store {
    Store(st.capps, st.works[WorkKey(cluster, WorkName(k)) := w], st.clock + 1)
  }

  function WithoutWork(st: Store, k: Key, cluster: string): Store {
    Store(st.capps, st.works - {WorkKey(cluster, WorkName(k))}, st.clock + 1)
  }

  lemma WithWorkIs(st: Store, k: Key, cluster: string, w: Work)
    ensures Framed(st, WithWork(st, k, cluster, w), k)
    ensures var sh := ShardOf(st, k);
      ShardOf(WithWork(st, k, cluster, w), k) == sh.(works := sh.works[cluster := w], clock := sh.clock + 1)
  {
    NamedSet(st.works, WorkName(k), cluster, w);
  }

  lemma WithoutWorkIs(st: Store, k: Key, cluster: string)
    ensures Framed(st, WithoutWork(st, k, cluster), k)
    ensures var sh := ShardOf(st, k);
      ShardOf(WithoutWork(st, k, cluster), k) == sh.(works := sh.works - {cluster}, clock := sh.clock + 1)
  {
    NamedRemoved(st.works, WorkName(k), cluster);
  }

  class ApiServer {
    var capps: map<Key, Capp>
    var works: map<WorkKey, Work>
    var clock: nat

    constructor ()
      ensures View() == Store(map[], map[], 0)
    {
      capps, works, clock := map[], map[], 0;
    }

    function View(): Store
      reads this
    {
      Store(capps, works, clock)
    }

    /** What belongs to one Capp. */
    ghost function At(k: Key): Shards.Shard
      reads this
    {
      ShardOf(View(), k)
    }

    method GetCapp(k: Key) returns (c: Option<Capp>)
      ensures c == At(k).capp
    {
      c := if k in capps then Some(capps[k]) else None;
    }

    method GetWork(k: Key, cluster: string) returns (w: Option<Work>)
      ensures w == Shards.GetWork(At(k), cluster)
    {
      InNamed(works, WorkName(k), cluster);
      var wk := WorkKey(cluster, WorkName(k));
      w := if wk in works then Some(works[wk]) else None;
    }

    /** Stores the new Capp under a new version, or drops it, or does nothing when it is the same. */
    method PutCapp(k: Key, c: Capp) returns (stored: Capp)
      requires k in capps
      modifies this
      ensures At(k) == Shards.Write(old(At(k)), c) && stored == Shards.Written(old(At(k)), c)
      ensures Framed(old(View()), View(), k)
    {
      var cur := capps[k];
      stored := cur;
      if c.(version := cur.version) != cur {
        stored := c.(version := clock + 1);
        if c.deleting && c.finalizers == {} {
          capps := capps - {k};
        } else {
          capps := capps[k := stored];
        }
        clock := clock + 1;
      }
    }

    method UpdateCapp(k: Key, env: AdmissionEnv, username: string, req: Capp) returns (reply: Shards.Reply<Capp>)
      modifies this
      ensures reply == Shards.UpdateCapp(old(At(k)), env, username, req).0
      ensures At(k) == Shards.UpdateCapp(old(At(k)), env, username, req).1
      ensures Framed(old(View()), View(), k)
    {
      if k !in capps {
        return Shards.Missing;
      }
      var cur := capps[k];
      if req.uid != cur.uid || req.version != cur.version {
        return Shards.Conflict;
      }
      if cur.deleting && !(req.finalizers <= cur.finalizers) {
        return Shards.Refused;
      }
      var admitted := Admit(env, username, cur.spec.hostname,
                            cur.(finalizers := req.finalizers, labels := req.labels,
                                 annotations := req.annotations, spec := req.spec));
      if admitted.None? {
        return Shards.Refused;
      }
      var stored := PutCapp(k, admitted.value);
      return Shards.Done(stored);
    }

    method UpdateStatus(k: Key, req: Capp) returns (reply: Shards.Reply<Capp>)
      modifies this
      ensures reply == Shards.UpdateStatus(old(At(k)), req).0
      ensures At(k) == Shards.UpdateStatus(old(At(k)), req).1
      ensures Framed(old(View()), View(), k)
    {
      if k !in capps {
        return Shards.Missing;
      }
      var cur := capps[k];
      if req.uid != cur.uid || req.version != cur.version {
        return Shards.Conflict;
      }
      var stored := PutCapp(k, cur.(site := req.site, report := req.report));
      return Shards.Done(stored);
    }

    method SetWork(k: Key, cluster: string, w: Work)
      modifies this
      ensures At(k) == old(At(k)).(works := old(At(k)).works[cluster := w], clock := old(clock) + 1)
      ensures Framed(old(View()), View(), k)
    {
      ghost var st := View();
      works := works[WorkKey(cluster, WorkName(k)) := w];
      clock := clock + 1;
      assert View() == WithWork(st, k, cluster, w);
      WithWorkIs(st, k, cluster, w);
    }

    method RemoveWork(k: Key, cluster: string)
      modifies this
      ensures At(k) == old(At(k)).(works := old(At(k)).works - {cluster}, clock := old(clock) + 1)
      ensures Framed(old(View()), View(), k)
    {
      ghost var st := View();
      works := works - {WorkKey(cluster, WorkName(k))};
      clock := clock + 1;
      assert View() == WithoutWork(st, k, cluster);
      WithoutWorkIs(st, k, cluster);
    }

    method CreateWork(k: Key, cluster: string, manifests: seq<Manifest>) returns (ok: bool)
      modifies this
      ensures ok == Shards.CreateWork(old(At(k)), cluster, manifests).0.Done?
      ensures At(k) == Shards.CreateWork(old(At(k)), cluster, manifests).1
      ensures Framed(old(View()), View(), k)
    {
      InNamed(works, WorkName(k), cluster);
      if cluster == "" || WorkKey(cluster, WorkName(k)) in works {
        return false;
      }
      SetWork(k, cluster, Shards.NewWork(clock + 1, manifests));
      return true;
    }

    method PutWork(k: Key, cluster: string, w: Work)
      requires cluster in At(k).works
      modifies this
      ensures At(k) == Shards.PutWork(old(At(k)), cluster, w)
      ensures Framed(old(View()), View(), k)
    {
      InNamed(works, WorkName(k), cluster);
      var cur := works[WorkKey(cluster, WorkName(k))];
      if w.(version := cur.version) == cur {
      } else if w.deleting && w.finalizers == {} {
        RemoveWork(k, cluster);
      } else {
        SetWork(k, cluster, w.(version := clock + 1));
      }
    }

    method UpdateWork(k: Key, cluster: string, req: Work) returns (reply: Shards.Reply<()>)
      modifies this
      ensures reply == Shards.UpdateWork(old(At(k)), cluster, req).0
      ensures At(k) == Shards.UpdateWork(old(At(k)), cluster, req).1
      ensures Framed(old(View()), View(), k)
    {
      InNamed(works, WorkName(k), cluster);
      var wk := WorkKey(cluster, WorkName(k));
      if wk !in works {
        return Shards.Missing;
      }
      if req.version != works[wk].version {
        return Shards.Conflict;
      }
      PutWork(k, cluster, works[wk].(manifests := req.manifests, configs := req.configs));
      return Shards.Done(());
    }

    method DeleteWork(k: Key, cluster: string) returns (reply: Shards.Reply<()>)
      modifies this
      ensures reply == Shards.DeleteWork(old(At(k)), cluster).0
      ensures At(k) == Shards.DeleteWork(old(At(k)), cluster).1
      ensures Framed(old(View()), View(), k)
    {
      InNamed(works, WorkName(k), cluster);
      var wk := WorkKey(cluster, WorkName(k));
      if wk !in works {
        return Shards.Missing;
      }
      if works[wk].finalizers == {} {
        RemoveWork(k, cluster);
      } else {
        PutWork(k, cluster, works[wk].(deleting := true));
      }
      return Shards.Done(());
    }
  }
}
