/** The two reconcilers as programs over the API server, run without interruption. */
module Reconcilers {
  import opened Objects
  import opened Heap
  import opened Names
  import opened Usernames
  import opened Decisions
  import opened Assembly
  import opened Shards
  import opened Protocol
  import opened Safety
  import opened Versions
  import opened Systems
  import opened Turns
  import opened ApiServers

  /** What a reconcile returns: nothing more to do, come back after a while, or an error. */
  datatype Outcome = Finished | RequeueAfter | Error

  datatype Deletion = Deleted | WorkNotFound | DeletionFailed

  class PlacementReconciler {
    const client: ApiServer

    constructor (client: ApiServer)
      ensures this.client == client
    {
      this.client := client;
    }

    method AddCappHasPlacementAnnotation(k: Key, capp: Capp, cluster: string, env: Env) returns (ok: bool)
      modifies client
      ensures ok == UpdateCapp(old(client.At(k)), env.admission, CONTROLLER, Annotate(capp, cluster)).0.Done?
      ensures client.At(k) == UpdateCapp(old(client.At(k)), env.admission, CONTROLLER, Annotate(capp, cluster)).1
      ensures Framed(old(client.View()), client.View(), k)
    {
      var annotations := capp.annotations[HAS_PLACEMENT := cluster];
      var reply := client.UpdateCapp(k, env.admission, CONTROLLER, capp.(annotations := annotations));
      return reply.Done?;
    }

    /** Two writes: the status, then the annotation on the object the first write returned. */
    method UpdateCappDestination(k: Key, capp: Capp, cluster: string, env: Env) returns (ok: bool)
      modifies client
      ensures var (r1, sh1) := UpdateStatus(old(client.At(k)), capp.(site := cluster));
        if !r1.Done? then !ok && client.At(k) == sh1
        else
          var (r2, sh2) := UpdateCapp(sh1, env.admission, CONTROLLER, Annotate(r1.value, cluster));
          ok == r2.Done? && client.At(k) == sh2
      ensures Framed(old(client.View()), client.View(), k)
    {
      ghost var before := client.View();
      var reply := client.UpdateStatus(k, capp.(site := cluster));
      if !reply.Done? {
        return false;
      }
      ghost var middle := client.View();
      ok := AddCappHasPlacementAnnotation(k, reply.value, cluster, env);
      FramedTwice(before, middle, client.View(), k);
    }

    /** The whole reconcile is the uninterrupted run of the step relation, and whenever it asks to come back that run
        leaves the key waiting. The source panics on a Capp without a site when no placement is configured. */
    method Reconcile(k: Key, env: Env) returns (outcome: Outcome)
      requires env.config.Some? && k in client.capps && client.capps[k].spec.site == "" ==>
        env.config.value.placements != []
      modifies client
      ensures client.At(k) == PlaceTurn(old(client.At(k)), env)
      ensures Framed(old(client.View()), client.View(), k)
      ensures env.config.None? ==> outcome == Error
      ensures env.config.Some? && old(client.At(k)).capp.None? ==> outcome == Finished
      ensures env.config.Some? && old(client.At(k)).capp.Some? ==>
        var capp := old(client.At(k)).capp.value;
        match Resolve(env.config.value, capp.spec.site, env.lookup)
        case Failed => outcome == Error
        case NoManagedCluster => outcome == RequeueAfter
        case Cluster(c) =>
          var (r1, sh1) := UpdateStatus(old(client.At(k)), capp.(site := c));
          && r1.Done?
          && outcome == if UpdateCapp(sh1, env.admission, CONTROLLER, Annotate(r1.value, c)).0.Done? then Finished
                        else Error
      ensures outcome != Finished ==> PlaceEnd(old(client.At(k)), env).pWaiting
      ensures outcome == Finished && old(client.At(k)).capp.Some? && client.At(k).capp.Some? ==>
        Placed(client.At(k).capp.value) && client.At(k).capp.value.site == Placement(client.At(k).capp.value)
    {
      if env.config.None? {
        PlaceTurnElse(client.At(k), env);
        return Error;
      }
      var config := env.config.value;
      var found := client.GetCapp(k);
      if found.None? {
        PlaceTurnElse(client.At(k), env);
        return Finished;
      }
      var capp := found.value;
      var placementRef := capp.spec.site;
      if placementRef == "" || placementRef in config.placements {
        var choice := PickDecision(config, capp.spec.site, env.lookup);
        if choice == NoManagedCluster {
          PlaceTurnElse(client.At(k), env);
          return RequeueAfter;
        }
        if choice == Failed {
          PlaceTurnElse(client.At(k), env);
          return Error;
        }
        placementRef := choice.name;
      }
      ghost var sh := client.At(k);
      PlaceTurnIs(sh, env, placementRef);
      var ok := UpdateCappDestination(k, capp, placementRef, env);
      if !ok {
        return Error;
      }
      DestinationReached(sh, env, capp, placementRef);
      return Finished;
    }
  }

  /** When both writes succeed the Capp is placed, and its status agrees. */
  lemma DestinationReached(sh: Shard, env: Env, capp: Capp, cluster: string)
    requires sh.capp == Some(capp) && env.config.Some?
    requires capp.spec.site != "" || env.config.value.placements != []
    requires Resolve(env.config.value, capp.spec.site, env.lookup) == Cluster(cluster)
    ensures var (reply, sh1) := UpdateStatus(sh, capp.(site := cluster));
      reply.Done? ==>
        var (r2, sh2) := UpdateCapp(sh1, env.admission, CONTROLLER, Annotate(reply.value, cluster));
        r2.Done? && sh2.capp.Some? ==> Placed(sh2.capp.value) && sh2.capp.value.site == Placement(sh2.capp.value)
  {
    ResolveIffProvenance(cluster, env.config.value, capp.spec.site, env.lookup);
    var (reply, sh1) := UpdateStatus(sh, capp.(site := cluster));
    SiteWritten(sh, capp, cluster);
    UpdateIsWritten(sh1, env.admission, CONTROLLER, Annotate(reply.value, cluster));
    assert Placement(Annotate(reply.value, cluster)) == cluster;
  }

  lemma SiteWritten(sh: Shard, capp: Capp, cluster: string)
    requires sh.capp == Some(capp)
    ensures var (reply, sh1) := UpdateStatus(sh, capp.(site := cluster));
      && reply.Done? && reply.value.site == cluster
      && (sh1.capp.Some? ==> sh1.capp.value.site == cluster)
  {
  }

  /** What a sync that runs alone answers. A missing Capp is nothing to do. A deleted one is looked at again, unless its
      finalizer could not be removed. A live one is finished exactly when it is under the finalizer, all it refers to
      exists, and a ManifestWork can stand at the annotated cluster; a conflict cannot arise. */
  ghost predicate SyncAnswers(k: Key, sh: Shard, env: Env, outcome: Outcome) {
    if sh.capp.None? then outcome == Finished
    else
      var c := sh.capp.value;
      if c.deleting then
        var released := UpdateCapp(sh, env.admission, CONTROLLER, c.(finalizers := c.finalizers - {CLEANUP})).0;
        outcome == if CLEANUP !in c.finalizers || c.site in sh.works || released.Done? then RequeueAfter else Error
      else
        var added := UpdateCapp(sh, env.admission, CONTROLLER, c.(finalizers := c.finalizers + {CLEANUP})).0;
        outcome == if && (CLEANUP in c.finalizers || added.Done?)
                      && Assemble(k, c, env.resources).Ok?
                      && (Placement(c) != "" || Placement(c) in sh.works)
                   then Finished else Error
  }

  /** A finished sync of a live Capp leaves exactly the assembled list in the ManifestWork of the annotated cluster. */
  ghost predicate SyncDelivers(k: Key, before: Shard, after: Shard, env: Env) {
    before.capp.Some? && !before.capp.value.deleting && Clocked(before) ==>
      var c := before.capp.value;
      && Placement(c) in after.works && Assemble(k, c, env.resources).Ok?
      && after.works[Placement(c)].manifests == Assemble(k, c, env.resources).value
  }

  lemma FinishedDelivers(k: Key, sh: Shard, env: Env)
    requires SyncAnswers(k, sh, env, Finished)
    ensures SyncDelivers(k, sh, SyncTurn(k, sh, env), env)
  {
    if sh.capp.Some? && !sh.capp.value.deleting {
      FinishedCarries(k, sh, env);
    }
  }

  class SyncReconciler {
    const client: ApiServer

    constructor (client: ApiServer)
      ensures this.client == client
    {
      this.client := client;
    }

    method EnsureFinalizer(k: Key, capp: Capp, env: Env) returns (ok: bool)
      modifies client
      ensures CLEANUP in capp.finalizers ==> ok && client.View() == old(client.View())
      ensures CLEANUP !in capp.finalizers ==>
        var (r, sh) := UpdateCapp(old(client.At(k)), env.admission, CONTROLLER,
                                  capp.(finalizers := capp.finalizers + {CLEANUP}));
        ok == r.Done? && client.At(k) == sh
      ensures Framed(old(client.View()), client.View(), k)
    {
      if CLEANUP !in capp.finalizers {
        var reply := client.UpdateCapp(k, env.admission, CONTROLLER, capp.(finalizers := capp.finalizers + {CLEANUP}));
        return reply.Done?;
      }
      return true;
    }

    method RemoveFinalizer(k: Key, capp: Capp, env: Env) returns (ok: bool)
      modifies client
      ensures var (r, sh) := UpdateCapp(old(client.At(k)), env.admission, CONTROLLER,
                                        capp.(finalizers := capp.finalizers - {CLEANUP}));
        ok == r.Done? && client.At(k) == sh
      ensures Framed(old(client.View()), client.View(), k)
    {
      var reply := client.UpdateCapp(k, env.admission, CONTROLLER, capp.(finalizers := capp.finalizers - {CLEANUP}));
      return reply.Done?;
    }

    method FinalizeCapp(k: Key, cluster: string) returns (result: Deletion)
      modifies client
      ensures client.At(k) == DeleteWork(old(client.At(k)), cluster).1
      ensures result == if cluster in old(client.At(k)).works then Deleted else WorkNotFound
      ensures result == WorkNotFound ==> client.View() == old(client.View())
      ensures Framed(old(client.View()), client.View(), k)
    {
      var work := client.GetWork(k, cluster);
      if work.None? {
        return WorkNotFound;
      }
      var reply := client.DeleteWork(k, cluster);
      if !reply.Done? {
        return DeletionFailed;
      }
      return Deleted;
    }

    /** The branch looks at the given Capp, the writes at what is stored. */
    method HandleCappDeletion(k: Key, capp: Capp, env: Env) returns (ok: bool)
      modifies client
      ensures CLEANUP !in capp.finalizers ==> ok && client.View() == old(client.View())
      ensures CLEANUP in capp.finalizers && capp.site in old(client.At(k)).works ==>
        ok && client.At(k) == DeleteWork(old(client.At(k)), capp.site).1
      ensures CLEANUP in capp.finalizers && capp.site !in old(client.At(k)).works ==>
        var (r, sh) := UpdateCapp(old(client.At(k)), env.admission, CONTROLLER,
                                  capp.(finalizers := capp.finalizers - {CLEANUP}));
        ok == r.Done? && client.At(k) == sh
      ensures Framed(old(client.View()), client.View(), k)
    {
      if CLEANUP in capp.finalizers {
        var result := FinalizeCapp(k, capp.site);
        if result == WorkNotFound {
          ok := RemoveFinalizer(k, capp, env);
          return;
        }
        return result == Deleted;
      }
      return true;
    }

    method CreateManifestWork(k: Key, cluster: string, manifests: seq<Manifest>) returns (ok: bool)
      modifies client
      ensures ok == CreateWork(old(client.At(k)), cluster, manifests).0.Done?
      ensures client.At(k) == CreateWork(old(client.At(k)), cluster, manifests).1
      ensures Framed(old(client.View()), client.View(), k)
    {
      ok := client.CreateWork(k, cluster, manifests);
    }

    method SyncManifestWork(k: Key, capp: Capp, labels: StringMap?, env: Env) returns (outcome: Outcome)
      requires capp.labels == if labels != null then labels.entries else map[]
      modifies client, labels
      ensures client.At(k) ==
        match Assemble(k, capp, env.resources)
        case Ok(ms) => PutManifests(old(client.At(k)), Placement(capp), ms)
        case Err => old(client.At(k))
      ensures outcome ==
        if Assemble(k, capp, env.resources).Ok? && CanPut(old(client.At(k)), Placement(capp)) then Finished else Error
      ensures Framed(old(client.View()), client.View(), k)
    {
      var cluster := Placement(capp);
      var manifests, ok := AssembleManifests(k, capp, labels, env.resources);
      if !ok {
        return Error;
      }
      var found := client.GetWork(k, cluster);
      if found.None? {
        var created := CreateManifestWork(k, cluster, manifests);
        return if created then Finished else Error;
      }
      var work := found.value.(manifests := manifests);
      var reply := client.UpdateWork(k, cluster, work);
      if !reply.Done? {
        return if reply == Conflict then RequeueAfter else Error;
      }
      return Finished;
    }

    /** The whole reconcile is the uninterrupted run of the step relation, and whenever it asks to come back that
        run leaves the key waiting. */
    method Reconcile(k: Key, env: Env) returns (outcome: Outcome)
      modifies client
      ensures client.At(k) == SyncTurn(k, old(client.At(k)), env)
      ensures outcome != Finished ==> SyncEnd(k, old(client.At(k)), env).sWaiting
      ensures SyncAnswers(k, old(client.At(k)), env, outcome)
      ensures outcome == Finished ==> SyncDelivers(k, old(client.At(k)), client.At(k), env)
      ensures Framed(old(client.View()), client.View(), k)
    {
      ghost var before, sh := client.View(), client.At(k);
      var found := client.GetCapp(k);
      if found.None? {
        SyncTurnNone(k, sh, env);
        return Finished;
      }
      var capp := found.value;
      if capp.deleting {
        SyncTurnDeleting(k, sh, env);
        var handled := HandleCappDeletion(k, capp, env);
        return if handled then RequeueAfter else Error;
      }
      SyncTurnLive(k, sh, env);
      var ok := EnsureFinalizer(k, capp, env);
      if !ok {
        return Error;
      }
      ghost var middle := client.View();
      EnsuredWorks(sh, client.At(k), env, capp);
      var labels: StringMap? := null;
      if capp.labels != map[] {
        labels := new StringMap(capp.labels);
      }
      outcome := SyncManifestWork(k, capp, labels, env);
      assert SyncAnswers(k, sh, env, outcome);
      if outcome == Finished {
        FinishedDelivers(k, sh, env);
      }
      FramedTwice(before, middle, client.View(), k);
    }
  }

  /** The write of the finalizer leaves the ManifestWorks alone. */
  lemma EnsuredWorks(a: Shard, b: Shard, env: Env, c: Capp)
    requires b == a || b == UpdateCapp(a, env.admission, CONTROLLER, c.(finalizers := c.finalizers + {CLEANUP})).1
    ensures b.works == a.works
  {
    UpdateIsWritten(a, env.admission, CONTROLLER, c.(finalizers := c.finalizers + {CLEANUP}));
  }

  /* ----- The uninterrupted programs are runs of the interleaved system ----- */

  /** The system after a list of actions at one key. */
  function IterateSystem(sys: System, k: Key, acts: seq<Act>): Option<System>
    decreases |acts|
  {
    if acts == [] then Some(sys)
    else
      match Next(sys, At(k, acts[0]))
      case Some(next) => IterateSystem(next, k, acts[1..])
      case None => None
  }

  lemma StepFrames(sys: System, k: Key, sl: Slice)
    ensures Framed(sys.store, WithSlice(sys, k, sl).store, k)
  {
    forall wk: WorkKey | wk.name != WorkName(k)
      ensures wk in Replaced(sys.store.works, WorkName(k), sl.sh.works) <==> wk in sys.store.works
      ensures wk in sys.store.works ==>
        Replaced(sys.store.works, WorkName(k), sl.sh.works)[wk] == sys.store.works[wk]
    {
      OtherReplaced(sys.store.works, WorkName(k), sl.sh.works, wk);
    }
  }

  lemma StepLifts(sys: System, k: Key, act: Act) returns (next: System)
    requires Step(k, SliceOf(sys, k), act).Some? && !act.Crash? && !act.Tick?
    ensures Next(sys, At(k, act)) == Some(next) && Step(k, SliceOf(sys, k), act) == Some(SliceOf(next, k))
    ensures Framed(sys.store, next.store, k)
  {
    var sl := Step(k, SliceOf(sys, k), act).value;
    next := WithSlice(sys, k, sl);
    WithSliceThenSlice(sys, k, sl);
    StepFrames(sys, k, sl);
  }

  lemma {:induction false} IterateLifts(sys: System, k: Key, acts: seq<Act>, end: Slice) returns (next: System)
    requires Iterate(k, SliceOf(sys, k), acts) == Some(end)
    requires forall a :: a in acts ==> !a.Crash? && !a.Tick?
    ensures IterateSystem(sys, k, acts) == Some(next) && SliceOf(next, k) == end
    ensures Framed(sys.store, next.store, k)
    decreases |acts|
  {
    if acts == [] {
      next := sys;
    } else {
      var first := StepLifts(sys, k, acts[0]);
      next := IterateLifts(first, k, acts[1..], end);
      FramedTwice(sys.store, first.store, next.store, k);
    }
  }

  /** Whatever else is going on, if the sync of a key has just started and only its steps follow, the store becomes
      what `SyncReconciler.Reconcile` makes of it. */
  lemma SyncProgramIsRun(sys: System, k: Key, env: Env) returns (acts: seq<Act>, next: System)
    requires SliceOf(sys, k).s == FetchingCapp
    ensures (forall a :: a in acts ==> a == Sync(env)) && IterateSystem(sys, k, acts) == Some(next)
    ensures next.store == With(sys.store, k, SyncTurn(k, ShardOf(sys.store, k), env))
  {
    var sl := SliceOf(sys, k);
    acts := FinishSyncIsRun(k, sl, env);
    next := IterateLifts(sys, k, acts, FinishSync(k, sl, env));
    FinishSyncAnywhere(k, sl, Slice(sl.sh, false, PlacingIdle, false, FetchingCapp), env);
    FramedIsWith(sys.store, next.store, k);
  }

  /** The same for `PlacementReconciler.Reconcile`. */
  lemma PlacementProgramIsRun(sys: System, k: Key, env: Env) returns (acts: seq<Act>, next: System)
    requires SliceOf(sys, k).p == ReadingConfig
    ensures (forall a :: a in acts ==> a == Place(env)) && IterateSystem(sys, k, acts) == Some(next)
    ensures next.store == With(sys.store, k, PlaceTurn(ShardOf(sys.store, k), env))
  {
    var sl := SliceOf(sys, k);
    acts := FinishPlaceIsRun(k, sl, env);
    next := IterateLifts(sys, k, acts, FinishPlace(sl, env));
    FinishPlaceAnywhere(sl, Slice(sl.sh, false, ReadingConfig, false, SyncingIdle), env);
    FramedIsWith(sys.store, next.store, k);
  }
}
