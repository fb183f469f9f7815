/** No work is lost: whatever is not settled waits in a queue or is being reconciled. */
module Queues {
  import opened Objects
  import opened Usernames
  import opened Decisions
  import opened Assembly
  import opened Admission
  import opened Shards
  import opened Protocol
  import opened Versions
  import opened Safety

  /** A live Capp is settled when its ManifestWork carries its present content, a deleted one when it has been
      released. */
  predicate Settled(k: Key, sh: Shard, res: Resources)
    requires sh.capp.Some?
  {
    var c := sh.capp.value;
    if c.deleting then CLEANUP !in c.finalizers
    else
      && Assemble(k, c, res).Ok?
      && Placement(c) in sh.works && sh.works[Placement(c)].manifests == Assemble(k, c, res).value
  }

  /** An unplaced Capp is pending for placement. */
  predicate UnplacedPending(sl: Slice) {
    sl.sh.capp.Some? && !Placed(sl.sh.capp.value) ==> sl.pWaiting || sl.p != PlacingIdle
  }

  /** A placed Capp that is being deleted and not released is pending for sync. */
  predicate ReleasePending(sl: Slice) {
    sl.sh.capp.Some? ==>
      var c := sl.sh.capp.value;
      Placed(c) && c.deleting && CLEANUP in c.finalizers ==> sl.sWaiting || sl.s != SyncingIdle
  }

  /** Settled, and for a live Capp the ManifestWork is there to stay. */
  predicate Deployed(k: Key, sh: Shard, res: Resources)
    requires sh.capp.Some?
  {
    Settled(k, sh, res) && (!sh.capp.value.deleting ==> !sh.works[Placement(sh.capp.value)].deleting)
  }

  /** A placed live Capp is deployed or pending for sync. */
  predicate LiveSafe(k: Key, sl: Slice, res: Resources) {
    sl.sh.capp.Some? && Placed(sl.sh.capp.value) && !sl.sh.capp.value.deleting ==>
      Deployed(k, sl.sh, res) || sl.sWaiting || sl.s != SyncingIdle
  }

  /** A placed live Capp is settled or pending for sync. */
  predicate LivePending(k: Key, sl: Slice, res: Resources) {
    sl.sh.capp.Some? && Placed(sl.sh.capp.value) && !sl.sh.capp.value.deleting ==>
      Settled(k, sl.sh, res) || sl.sWaiting || sl.s != SyncingIdle
  }

  /** Without a new event, the snapshot of the running sync is the Capp itself. */
  predicate SnapFresh(sl: Slice) {
    sl.sh.capp.Some? && Placed(sl.sh.capp.value) && !sl.sWaiting && !sl.s.SyncingIdle? && !sl.s.FetchingCapp? ==>
      sl.s.snap == sl.sh.capp.value
  }

  predicate ManifestsOfSnap(k: Key, s: Syncing, res: Resources) {
    s.LookingUpWork? || s.CreatingWork? || s.UpdatingWork? ==> Assemble(k, s.snap, res) == Ok(s.manifests)
  }

  /** What needs no assumption. */
  predicate Pending(sl: Slice) {
    UnplacedPending(sl) && ReleasePending(sl) && SnapFresh(sl)
  }

  predicate LiveInv(k: Key, sl: Slice, res: Resources) {
    LiveSafe(k, sl, res) && ManifestsOfSnap(k, sl.s, res)
  }

  predicate QueueInv(k: Key, sl: Slice, res: Resources) {
    Pending(sl) && LiveInv(k, sl, res)
  }

  /** A sync that nothing has told to come back ends by updating a ManifestWork that is being deleted. The source never
      looks at the deletion mark, and reports success. */
  predicate AdoptsAt(sl: Slice, act: Act) {
    && act.Sync? && sl.s.UpdatingWork? && !sl.sWaiting
    && sl.sh.capp == Some(sl.s.snap) && Placed(sl.s.snap)
    && GetWork(sl.sh, Placement(sl.s.snap)) == Some(sl.s.work) && sl.s.work.deleting
  }

  /** The objects a Capp refers to stay as they are. */
  predicate SteadyAt(act: Act, res: Resources) {
    act.Sync? ==> act.env.resources == res
  }

  /* ----- Events ----- */

  /** Of the two controllers exactly one accepts an event. */
  lemma ExactlyOneAccepts(e: Event)
    ensures SyncAccepts(e) != PlacementAccepts(e)
  {
  }

  /** After a change, the key waits for the controller in charge of the Capp as it is now, and the other queue is as it
      was. Without a change both are. */
  lemma EventsRouted(sl: Slice, sh: Shard)
    ensures var next := Commit(sl, sh);
      if sh.capp == sl.sh.capp then next.pWaiting == sl.pWaiting && next.sWaiting == sl.sWaiting
      else if Placed(EventOf(sl.sh.capp, sh.capp).capp) then next.sWaiting && next.pWaiting == sl.pWaiting
      else next.pWaiting && next.sWaiting == sl.sWaiting
  {
    if sh.capp != sl.sh.capp {
      ExactlyOneAccepts(EventOf(sl.sh.capp, sh.capp));
    }
  }

  /* ----- Unplaced and deleted Capps are pending, whatever the decisions and the references are ----- */

  lemma CommitPending(sl: Slice, sh: Shard)
    requires Pending(sl)
    ensures Pending(Commit(sl, sh))
  {
    EventsRouted(sl, sh);
  }

  lemma AnnotationWriteIs(sl: Slice, env: Env)
    requires VersionInv(sl) && sl.p.WritingAnnotation?
    ensures var (reply, sh) := UpdateCapp(sl.sh, env.admission, CONTROLLER, Annotate(sl.p.snap, sl.p.cluster));
      && sh.works == sl.sh.works
      && (reply.Done? && sh.capp.Some? ==> Placed(sh.capp.value))
  {
    ResolveIffProvenance(sl.p.cluster, sl.p.origin.config, sl.p.origin.site, sl.p.origin.lookup);
  }

  lemma PendingPlace(sl: Slice, env: Env, next: Slice)
    requires VersionInv(sl) && Pending(sl) && PlaceStep(sl, env) == Some(next)
    ensures Pending(next)
  {
    if sl.p.WritingStatus? {
      CommitPending(sl, UpdateStatus(sl.sh, sl.p.snap.(site := sl.p.cluster)).1);
    } else if sl.p.WritingAnnotation? {
      AnnotationWriteIs(sl, env);
      CommitPending(sl, UpdateCapp(sl.sh, env.admission, CONTROLLER, Annotate(sl.p.snap, sl.p.cluster)).1);
    } else {
      PendingPlaceRead(sl, env, next);
    }
  }

  lemma PendingPlaceRead(sl: Slice, env: Env, next: Slice)
    requires Pending(sl) && PlaceStep(sl, env) == Some(next) && !sl.p.WritingStatus? && !sl.p.WritingAnnotation?
    ensures Pending(next)
  {
  }

  lemma PendingSyncCapp(k: Key, sl: Slice, env: Env, next: Slice)
    requires VersionInv(sl) && Pending(sl) && SyncStep(k, sl, env) == Some(next)
    requires sl.s.AddingFinalizer? || sl.s.RemovingFinalizer?
    ensures Pending(next)
  {
    if sl.s.AddingFinalizer? {
      CommitPending(sl, UpdateCapp(sl.sh, env.admission, CONTROLLER,
                                   sl.s.snap.(finalizers := sl.s.snap.finalizers + {CLEANUP})).1);
    } else {
      CommitPending(sl, UpdateCapp(sl.sh, env.admission, CONTROLLER,
                                   sl.s.snap.(finalizers := sl.s.snap.finalizers - {CLEANUP})).1);
    }
  }

  lemma PendingSyncOther(k: Key, sl: Slice, env: Env, next: Slice)
    requires VersionInv(sl) && Pending(sl) && SyncStep(k, sl, env) == Some(next)
    requires !sl.s.AddingFinalizer? && !sl.s.RemovingFinalizer?
    ensures Pending(next)
  {
  }

  lemma PendingUser(k: Key, sl: Slice, act: Act, next: Slice)
    requires Pending(sl) && Step(k, sl, act) == Some(next)
    requires act.Create? || act.Edit? || act.Delete? || act.Report?
    ensures Pending(next)
  {
    match act
    case Create(u, env, draft) =>
      CommitPending(sl, CreateCapp(sl.sh, env.admission, u, draft).1);
    case Edit(u, env, finalizers, labels, annotations, spec) =>
      var req := sl.sh.capp.value.(finalizers := finalizers, labels := labels, annotations := annotations,
                                   spec := spec);
      CommitPending(sl, UpdateCapp(sl.sh, env.admission, u, req).1);
    case Delete =>
      CommitPending(sl, DeleteCapp(sl.sh));
    case Report(report) =>
      CommitPending(sl, UpdateStatus(sl.sh, sl.sh.capp.value.(report := report)).1);
  }

  lemma PendingOthers(k: Key, sl: Slice, act: Act, next: Slice)
    requires Pending(sl) && Step(k, sl, act) == Some(next)
    requires act.Agent? || act.PlaceFails? || act.SyncFails? || act.Crash? || act.Tick?
    ensures Pending(next)
  {
  }

  lemma PendingSync(k: Key, sl: Slice, env: Env, next: Slice)
    requires VersionInv(sl) && Pending(sl) && SyncStep(k, sl, env) == Some(next)
    ensures Pending(next)
  {
    if sl.s.AddingFinalizer? || sl.s.RemovingFinalizer? {
      PendingSyncCapp(k, sl, env, next);
    } else {
      PendingSyncOther(k, sl, env, next);
    }
  }

  lemma PendingUnanswered(k: Key, sl: Slice, act: Act, next: Slice)
    requires VersionInv(sl) && Pending(sl) && Step(k, sl, act) == Some(next)
    requires act.PlaceUnanswered? || act.SyncUnanswered?
    ensures Pending(next)
  {
    var done := UnansweredIs(k, sl, act, next);
    if act.PlaceUnanswered? {
      PendingPlace(sl, act.env, done);
    } else {
      PendingSync(k, sl, act.env, done);
    }
  }

  /** Every step of anybody keeps these Capps pending. */
  lemma PendingStep(k: Key, sl: Slice, act: Act, next: Slice)
    requires VersionInv(sl) && Pending(sl) && Step(k, sl, act) == Some(next)
    ensures Pending(next)
  {
    match act
    case Place(env) => PendingPlace(sl, env, next);
    case Sync(env) => PendingSync(k, sl, env, next);
    case _ =>
      if act.Create? || act.Edit? || act.Delete? || act.Report? {
        PendingUser(k, sl, act, next);
      } else if act.PlaceUnanswered? || act.SyncUnanswered? {
        PendingUnanswered(k, sl, act, next);
      } else {
        PendingOthers(k, sl, act, next);
      }
  }

  /* ----- Placed live Capps are deployed or pending, unless a sync adopts ----- */

  lemma CommitKeeps(k: Key, sl: Slice, sh: Shard, res: Resources)
    requires LiveInv(k, sl, res) && sh.works == sl.sh.works
    ensures LiveInv(k, Commit(sl, sh), res)
  {
    EventsRouted(sl, sh);
  }

  lemma LivePlaceWrite(k: Key, sl: Slice, env: Env, res: Resources, next: Slice)
    requires VersionInv(sl) && LiveInv(k, sl, res) && PlaceStep(sl, env) == Some(next)
    requires sl.p.WritingStatus? || sl.p.WritingAnnotation?
    ensures LiveInv(k, next, res)
  {
    if sl.p.WritingStatus? {
      CommitKeeps(k, sl, UpdateStatus(sl.sh, sl.p.snap.(site := sl.p.cluster)).1, res);
    } else {
      AnnotationWriteIs(sl, env);
      CommitKeeps(k, sl, UpdateCapp(sl.sh, env.admission, CONTROLLER, Annotate(sl.p.snap, sl.p.cluster)).1, res);
    }
  }

  lemma LivePlaceRead(k: Key, sl: Slice, env: Env, res: Resources, next: Slice)
    requires LiveInv(k, sl, res) && PlaceStep(sl, env) == Some(next)
    requires !sl.p.WritingStatus? && !sl.p.WritingAnnotation?
    ensures LiveInv(k, next, res)
  {
  }

  lemma LivePlace(k: Key, sl: Slice, env: Env, res: Resources, next: Slice)
    requires VersionInv(sl) && LiveInv(k, sl, res) && PlaceStep(sl, env) == Some(next)
    ensures LiveInv(k, next, res)
  {
    if sl.p.WritingStatus? || sl.p.WritingAnnotation? {
      LivePlaceWrite(k, sl, env, res, next);
    } else {
      LivePlaceRead(k, sl, env, res, next);
    }
  }

  /** After a write of the finalizer the sync goes on or comes back. */
  lemma FinalizerGoesOn(k: Key, sl: Slice, env: Env, next: Slice)
    requires SyncStep(k, sl, env) == Some(next) && (sl.s.AddingFinalizer? || sl.s.RemovingFinalizer?)
    ensures next.s.Assembling? || (next.s.SyncingIdle? && next.sWaiting)
  {
  }

  lemma LiveSyncCapp(k: Key, sl: Slice, env: Env, res: Resources, next: Slice)
    requires SyncStep(k, sl, env) == Some(next) && (sl.s.AddingFinalizer? || sl.s.RemovingFinalizer?)
    ensures LiveInv(k, next, res)
  {
    FinalizerGoesOn(k, sl, env, next);
  }

  /** A successful create or update leaves the manifests in the entry of the cluster, which is being deleted only if it
      was before. */
  predicate Stored(a: Shard, b: Shard, cluster: string, manifests: seq<Manifest>) {
    && b.capp == a.capp
    && (|| (cluster in a.works && a.works[cluster].deleting)
        || (cluster in b.works && b.works[cluster].manifests == manifests && !b.works[cluster].deleting))
  }

  lemma WorkIsStored(sl: Slice, env: Env)
    ensures sl.s.CreatingWork? ==>
      var (reply, sh) := CreateWork(sl.sh, Placement(sl.s.snap), sl.s.manifests);
      reply.Done? ==> Placement(sl.s.snap) !in sl.sh.works && Stored(sl.sh, sh, Placement(sl.s.snap), sl.s.manifests)
    ensures sl.s.UpdatingWork? ==>
      var (reply, sh) := UpdateWork(sl.sh, Placement(sl.s.snap), sl.s.work.(manifests := sl.s.manifests));
      reply.Done? ==>
        && Placement(sl.s.snap) in sl.sh.works && sl.sh.works[Placement(sl.s.snap)].version == sl.s.work.version
        && Stored(sl.sh, sh, Placement(sl.s.snap), sl.s.manifests)
  {
  }

  lemma StoredDeploys(k: Key, sl: Slice, sh: Shard, res: Resources)
    requires Pending(sl) && LiveInv(k, sl, res) && (sl.s.CreatingWork? || sl.s.UpdatingWork?)
    requires Stored(sl.sh, sh, Placement(sl.s.snap), sl.s.manifests)
    requires sl.sWaiting || sl.sh.capp != Some(sl.s.snap) || !Placed(sl.s.snap)
             || !(Placement(sl.s.snap) in sl.sh.works && sl.sh.works[Placement(sl.s.snap)].deleting)
    ensures LiveInv(k, sl.(sh := sh, s := SyncingIdle), res)
  {
  }

  lemma SyncWorkEnds(k: Key, sl: Slice, env: Env, next: Slice)
    requires VersionInv(sl) && SyncStep(k, sl, env) == Some(next)
    requires sl.s.CreatingWork? || sl.s.UpdatingWork? || sl.s.DeletingWork?
    ensures next == sl.(sh := next.sh, sWaiting := next.sWaiting, s := SyncingIdle) && next.sh.capp == sl.sh.capp
    ensures !next.sWaiting ==>
      && !sl.s.DeletingWork? && !sl.sWaiting && Stored(sl.sh, next.sh, Placement(sl.s.snap), sl.s.manifests)
      && (sl.s.CreatingWork? ==> GetWork(sl.sh, Placement(sl.s.snap)).None?)
      && (sl.s.UpdatingWork? ==> GetWork(sl.sh, Placement(sl.s.snap)) == Some(sl.s.work))
  {
    WorkIsStored(sl, env);
  }

  lemma WaitingIsEnough(k: Key, sl: Slice, res: Resources)
    requires sl.sWaiting && sl.s == SyncingIdle
    ensures LiveInv(k, sl, res)
  {
  }

  lemma LiveSyncWork(k: Key, sl: Slice, env: Env, res: Resources, next: Slice)
    requires VersionInv(sl) && Pending(sl) && LiveInv(k, sl, res) && SyncStep(k, sl, env) == Some(next)
    requires !AdoptsAt(sl, Sync(env))
    requires sl.s.CreatingWork? || sl.s.UpdatingWork? || sl.s.DeletingWork?
    ensures LiveInv(k, next, res)
  {
    SyncWorkEnds(k, sl, env, next);
    if next.sWaiting {
      WaitingIsEnough(k, next, res);
    } else {
      StoredDeploys(k, sl, next.sh, res);
    }
  }

  lemma LiveSyncStart(k: Key, sl: Slice, env: Env, res: Resources, next: Slice)
    requires LiveInv(k, sl, res) && SyncStep(k, sl, env) == Some(next) && sl.s.SyncingIdle?
    ensures LiveInv(k, next, res)
  {
  }

  lemma LiveSyncFetch(k: Key, sl: Slice, env: Env, res: Resources, next: Slice)
    requires Pending(sl) && LiveInv(k, sl, res) && SyncStep(k, sl, env) == Some(next) && sl.s.FetchingCapp?
    ensures LiveInv(k, next, res)
  {
  }

  lemma LiveSyncRead(k: Key, sl: Slice, env: Env, res: Resources, next: Slice)
    requires VersionInv(sl) && Pending(sl) && LiveInv(k, sl, res) && SyncStep(k, sl, env) == Some(next)
    requires env.resources == res && (sl.s.Assembling? || sl.s.LookingUpWork? || sl.s.FindingWork?)
    ensures LiveInv(k, next, res)
  {
  }

  lemma AgentKeepsDeployed(k: Key, sh: Shard, cluster: string, finalizers: set<string>, status: string, res: Resources)
    requires sh.capp.Some? && !sh.capp.value.deleting && Deployed(k, sh, res)
    ensures Deployed(k, AgentWrite(sh, cluster, finalizers, status), res)
  {
  }

  lemma LiveUser(k: Key, sl: Slice, act: Act, res: Resources, next: Slice)
    requires LiveInv(k, sl, res) && Step(k, sl, act) == Some(next)
    requires act.Create? || act.Edit? || act.Delete? || act.Report?
    ensures LiveInv(k, next, res)
  {
    match act
    case Create(u, env, draft) =>
      CommitKeeps(k, sl, CreateCapp(sl.sh, env.admission, u, draft).1, res);
    case Edit(u, env, finalizers, labels, annotations, spec) =>
      var req := sl.sh.capp.value.(finalizers := finalizers, labels := labels, annotations := annotations,
                                   spec := spec);
      CommitKeeps(k, sl, UpdateCapp(sl.sh, env.admission, u, req).1, res);
    case Delete =>
      CommitKeeps(k, sl, DeleteCapp(sl.sh), res);
    case Report(report) =>
      CommitKeeps(k, sl, UpdateStatus(sl.sh, sl.sh.capp.value.(report := report)).1, res);
  }

  lemma LiveOthers(k: Key, sl: Slice, act: Act, res: Resources, next: Slice)
    requires LiveInv(k, sl, res) && Step(k, sl, act) == Some(next)
    requires act.Agent? || act.PlaceFails? || act.SyncFails? || act.Crash? || act.Tick?
    ensures LiveInv(k, next, res)
  {
    if act.Agent? && sl.sh.capp.Some? && !sl.sh.capp.value.deleting && Deployed(k, sl.sh, res) {
      AgentKeepsDeployed(k, sl.sh, act.cluster, act.finalizers, act.status, res);
    }
  }

  lemma LiveUnanswered(k: Key, sl: Slice, act: Act, res: Resources, next: Slice)
    requires VersionInv(sl) && Pending(sl) && LiveInv(k, sl, res) && Step(k, sl, act) == Some(next)
    requires act.PlaceUnanswered? || act.SyncUnanswered?
    ensures LiveInv(k, next, res)
  {
    var done := UnansweredIs(k, sl, act, next);
    if act.PlaceUnanswered? {
      LivePlace(k, sl, act.env, res, done);
    } else {
      WaitingIsEnough(k, next, res);
    }
  }

  lemma LiveSync(k: Key, sl: Slice, env: Env, res: Resources, next: Slice)
    requires VersionInv(sl) && Pending(sl) && LiveInv(k, sl, res) && SyncStep(k, sl, env) == Some(next)
    requires env.resources == res && !AdoptsAt(sl, Sync(env))
    ensures LiveInv(k, next, res)
  {
    if sl.s.AddingFinalizer? || sl.s.RemovingFinalizer? {
      LiveSyncCapp(k, sl, env, res, next);
    } else if sl.s.CreatingWork? || sl.s.UpdatingWork? || sl.s.DeletingWork? {
      LiveSyncWork(k, sl, env, res, next);
    } else if sl.s.SyncingIdle? {
      LiveSyncStart(k, sl, env, res, next);
    } else if sl.s.FetchingCapp? {
      LiveSyncFetch(k, sl, env, res, next);
    } else {
      LiveSyncRead(k, sl, env, res, next);
    }
  }

  lemma LiveStep(k: Key, sl: Slice, act: Act, res: Resources, next: Slice)
    requires VersionInv(sl) && Pending(sl) && LiveInv(k, sl, res) && Step(k, sl, act) == Some(next)
    requires SteadyAt(act, res) && !AdoptsAt(sl, act)
    ensures LiveInv(k, next, res)
  {
    match act
    case Place(env) => LivePlace(k, sl, env, res, next);
    case Sync(env) => LiveSync(k, sl, env, res, next);
    case _ =>
      if act.Create? || act.Edit? || act.Delete? || act.Report? {
        LiveUser(k, sl, act, res, next);
      } else if act.PlaceUnanswered? || act.SyncUnanswered? {
        LiveUnanswered(k, sl, act, res, next);
      } else {
        LiveOthers(k, sl, act, res, next);
      }
  }

  /** Every step of anybody keeps the invariant, as long as the references are steady and no sync adopts a ManifestWork
      that is being deleted. */
  lemma QueueStep(k: Key, sl: Slice, act: Act, res: Resources, next: Slice)
    requires VersionInv(sl) && QueueInv(k, sl, res) && Step(k, sl, act) == Some(next)
    requires SteadyAt(act, res) && !AdoptsAt(sl, act)
    ensures QueueInv(k, next, res)
  {
    PendingStep(k, sl, act, next);
    LiveStep(k, sl, act, res, next);
  }

  /** A sync that adopts leaves a placed live Capp undeployed and nobody told. */
  lemma AdoptingForgets(k: Key, sl: Slice, act: Act, res: Resources, next: Slice)
    requires VersionInv(sl) && Step(k, sl, act) == Some(next) && AdoptsAt(sl, act)
    ensures !LiveSafe(k, next, res)
  {
  }

  /** Under the safety invariant no ManifestWork of a live Capp is being deleted. */
  lemma SafeNeverAdopts(sl: Slice, act: Act)
    requires SafeInv(sl)
    ensures !AdoptsAt(sl, act)
  {
  }
}
