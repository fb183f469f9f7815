/** The finalizer guards the deployment, and a Capp has a single home. */
module Safety {
  import opened Objects
  import opened Usernames
  import opened Admission
  import opened Shards
  import opened Protocol
  import opened Versions

  /* ----- The two properties ----- */

  /** While a ManifestWork exists, its Capp exists and carries the cleanup finalizer. */
  predicate Guarded(sh: Shard) {
    sh.works != map[] ==> sh.capp.Some? && CLEANUP in sh.capp.value.finalizers
  }

  /** A ManifestWork stands only where both the annotation and the status say. */
  predicate SingleHome(sh: Shard) {
    forall c :: c in sh.works ==> sh.capp.Some? && c == Placement(sh.capp.value) && c == sh.capp.value.site
  }

  /** The recorded site of a placed Capp is the cluster of its annotation. */
  predicate Agrees(sh: Shard) {
    sh.capp.Some? && Placed(sh.capp.value) ==> sh.capp.value.site == Placement(sh.capp.value)
  }

  /* ----- The check that the placement reconcile omits ----- */

  /** Before a placement reconcile writes the status of a Capp that is placed already, it has chosen the cluster of the
      annotation. A status write on an outdated snapshot fails anyhow. */
  predicate KeepsAt(sl: Slice, act: Act) {
    (act.Place? || act.PlaceUnanswered?) && sl.p.WritingStatus?
    && sl.sh.capp == Some(sl.p.snap) && Placed(sl.p.snap) ==>
      sl.p.cluster == Placement(sl.p.snap)
  }

  /* ----- The invariant ----- */

  predicate WorksAtHome(sh: Shard) {
    forall c :: c in sh.works ==>
      && c != "" && sh.capp.Some? && CLEANUP in sh.capp.value.finalizers && Placement(sh.capp.value) == c
      && (sh.works[c].deleting ==> sh.capp.value.deleting)
  }

  /** The Capp of this snapshot still exists under its finalizer, and was not placed elsewhere. */
  predicate Held(sh: Shard, snap: Capp) {
    && sh.capp.Some? && sh.capp.value.uid == snap.uid && CLEANUP in sh.capp.value.finalizers
    && (Placed(snap) ==> Placement(sh.capp.value) == Placement(snap))
  }

  predicate SyncingHome(sh: Shard, s: Syncing) {
    && (s.Assembling? || s.LookingUpWork? || s.CreatingWork? || s.UpdatingWork? ==> Held(sh, s.snap))
    && (s.FindingWork? || s.DeletingWork? || s.RemovingFinalizer? ==>
          Held(sh, s.snap) && sh.capp.value.deleting)
    && (s.RemovingFinalizer? ==> s.snap.site !in sh.works)
  }

  predicate SafeInv(sl: Slice) {
    VersionInv(sl) && HomeInv(sl.sh, sl.s)
  }

  /** The invariant without what the snapshots know of versions. */
  predicate HomeInv(sh: Shard, s: Syncing) {
    Agrees(sh) && WorksAtHome(sh) && SyncingHome(sh, s)
  }

  lemma SafeInvMeans(sl: Slice)
    requires SafeInv(sl)
    ensures Guarded(sl.sh) && SingleHome(sl.sh)
    ensures |sl.sh.works| <= 1
  {
    if c :| c in sl.sh.works {
      assert sl.sh.works.Keys == {Placement(sl.sh.capp.value)};
    } else {
      assert sl.sh.works.Keys == {};
    }
  }

  /* ----- What every step but those of sync does to the store ----- */

  /** An object under the finalizer stays, with its placement; no ManifestWork appears. */
  predicate Follows(a: Shard, b: Shard) {
    && Agrees(b)
    && (a.capp.Some? && CLEANUP in a.capp.value.finalizers ==>
          && b.capp.Some? && b.capp.value.uid == a.capp.value.uid && CLEANUP in b.capp.value.finalizers
          && (Placed(a.capp.value) ==> Placement(b.capp.value) == Placement(a.capp.value))
          && (a.capp.value.deleting ==> b.capp.value.deleting))
    && (forall c :: c in b.works ==> c in a.works && b.works[c].deleting == a.works[c].deleting)
  }

  lemma FollowsKeeps(a: Shard, b: Shard, s: Syncing)
    requires WorksAtHome(a) && SyncingHome(a, s) && Follows(a, b)
    ensures WorksAtHome(b) && SyncingHome(b, s)
  {
  }

  /** A main-resource write that succeeded was made on the stored version, and changed what was asked for. */
  predicate CappWritten(a: Shard, b: Shard, req: Capp) {
    && a.capp.Some? && a.capp.value.uid == req.uid && a.capp.value.version == req.version && b.works == a.works
    && (b.capp.None? ==> a.capp.value.deleting && req.finalizers == {})
    && (b.capp.Some? ==>
          && b.capp.value.uid == req.uid && b.capp.value.deleting == a.capp.value.deleting
          && b.capp.value.finalizers == req.finalizers && b.capp.value.site == a.capp.value.site
          && Placement(b.capp.value) == Placement(req))
  }

  lemma UpdateIsWritten(sh: Shard, env: AdmissionEnv, user: string, req: Capp)
    ensures var (reply, next) := UpdateCapp(sh, env, user, req);
      if reply.Done? then CappWritten(sh, next, req) else next == sh
  {
  }

  lemma EditFollows(a: Shard, b: Shard, req: Capp)
    requires a.capp.Some? && Agrees(a)
    requires b == a || CappWritten(a, b, req)
    requires Placement(req) == Placement(a.capp.value)
    requires CLEANUP in req.finalizers <==> CLEANUP in a.capp.value.finalizers
    ensures Follows(a, b)
  {
  }

  lemma AnnotateFollows(a: Shard, b: Shard, snap: Capp, cluster: string)
    requires Knows(a, snap) && snap.site == cluster && Agrees(a)
    requires b == a || CappWritten(a, b, Annotate(snap, cluster))
    ensures Follows(a, b)
  {
  }

  lemma StatusFollows(sh: Shard, req: Capp)
    requires Agrees(sh)
    requires sh.capp.Some? && sh.capp.value.uid == req.uid && sh.capp.value.version == req.version ==>
      Placed(sh.capp.value) ==> req.site == Placement(sh.capp.value)
    ensures Follows(sh, UpdateStatus(sh, req).1)
  {
  }

  lemma AgentFollows(sh: Shard, cluster: string, finalizers: set<string>, status: string)
    requires Agrees(sh)
    ensures Follows(sh, AgentWrite(sh, cluster, finalizers, status))
  {
  }

  lemma CreateFollows(sh: Shard, env: AdmissionEnv, user: string, draft: Capp)
    requires Agrees(sh) && HAS_PLACEMENT !in draft.annotations
    ensures Follows(sh, CreateCapp(sh, env, user, draft).1)
  {
  }

  lemma DeleteFollows(sh: Shard)
    requires Agrees(sh)
    ensures Follows(sh, DeleteCapp(sh))
  {
  }

  /* ----- The invariant is inductive ----- */

  lemma SafePlace(sl: Slice, env: Env, next: Slice)
    requires SafeInv(sl) && PlaceStep(sl, env) == Some(next) && KeepsAt(sl, Place(env))
    ensures Follows(sl.sh, next.sh) && next.s == sl.s
  {
    if sl.p.WritingStatus? {
      StatusFollows(sl.sh, sl.p.snap.(site := sl.p.cluster));
    } else if sl.p.WritingAnnotation? {
      SafeAnnotate(sl, env, next);
    } else {
      SafePlaceRead(sl, env, next);
    }
  }

  lemma SafePlaceRead(sl: Slice, env: Env, next: Slice)
    requires SafeInv(sl) && PlaceStep(sl, env) == Some(next) && KeepsAt(sl, Place(env))
    requires !sl.p.WritingStatus? && !sl.p.WritingAnnotation?
    ensures Follows(sl.sh, next.sh) && next.s == sl.s
  {
  }

  lemma SafeAnnotate(sl: Slice, env: Env, next: Slice)
    requires SafeInv(sl) && PlaceStep(sl, env) == Some(next) && sl.p.WritingAnnotation?
    ensures Follows(sl.sh, next.sh) && next.s == sl.s
  {
    var req := Annotate(sl.p.snap, sl.p.cluster);
    UpdateIsWritten(sl.sh, env.admission, CONTROLLER, req);
    var (reply, sh) := UpdateCapp(sl.sh, env.admission, CONTROLLER, req);
    CommitShard(sl, sh);
    AnnotateFollows(sl.sh, next.sh, sl.p.snap, sl.p.cluster);
  }

  lemma SafeEdit(k: Key, sl: Slice, act: Act, next: Slice)
    requires SafeInv(sl) && Step(k, sl, act) == Some(next) && act.Edit?
    ensures Follows(sl.sh, next.sh) && next.p == sl.p && next.s == sl.s
  {
    var req := sl.sh.capp.value.(finalizers := act.finalizers, labels := act.labels,
                                 annotations := act.annotations, spec := act.spec);
    UpdateIsWritten(sl.sh, act.env.admission, act.username, req);
    var (reply, sh) := UpdateCapp(sl.sh, act.env.admission, act.username, req);
    CommitShard(sl, sh);
    EditFollows(sl.sh, next.sh, req);
  }

  lemma SafeWorld(k: Key, sl: Slice, act: Act, next: Slice)
    requires SafeInv(sl) && Step(k, sl, act) == Some(next)
    requires act.Create? || act.Delete? || act.Report? || act.Agent? || act.Tick?
    ensures Follows(sl.sh, next.sh) && next.p == sl.p && next.s == sl.s
  {
    match act
    case Create(u, env, draft) =>
      CreateFollows(sl.sh, env.admission, u, draft);
      CommitShard(sl, CreateCapp(sl.sh, env.admission, u, draft).1);
    case Delete =>
      DeleteFollows(sl.sh);
      CommitShard(sl, DeleteCapp(sl.sh));
    case Report(report) =>
      CommitShard(sl, UpdateStatus(sl.sh, sl.sh.capp.value.(report := report)).1);
      StatusFollows(sl.sh, sl.sh.capp.value.(report := report));
    case Agent(cluster, finalizers, status) =>
      AgentFollows(sl.sh, cluster, finalizers, status);
    case _ =>
  }

  lemma AddedKeeps(a: Shard, b: Shard, snap: Capp)
    requires HomeInv(a, AddingFinalizer(snap)) && !snap.deleting
    requires a.capp == Some(snap) && CappWritten(a, b, snap.(finalizers := snap.finalizers + {CLEANUP}))
    ensures HomeInv(b, Assembling(snap))
  {
  }

  lemma RemovedKeeps(a: Shard, b: Shard, snap: Capp)
    requires HomeInv(a, RemovingFinalizer(snap))
    requires a.capp == Some(snap) && CappWritten(a, b, snap.(finalizers := snap.finalizers - {CLEANUP}))
    ensures HomeInv(b, SyncingIdle)
  {
    forall c
      ensures c !in b.works
    {
      assert c in a.works ==> c == snap.site;
    }
  }

  lemma SafeSyncCapp(k: Key, sl: Slice, env: Env, next: Slice)
    requires SafeInv(sl) && SyncStep(k, sl, env) == Some(next)
    requires sl.s.AddingFinalizer? || sl.s.RemovingFinalizer?
    ensures HomeInv(next.sh, next.s)
  {
    var snap := sl.s.snap;
    assert HomeInv(sl.sh, sl.s);
    if sl.s.AddingFinalizer? {
      UpdateIsWritten(sl.sh, env.admission, CONTROLLER, snap.(finalizers := snap.finalizers + {CLEANUP}));
      var (reply, sh) := UpdateCapp(sl.sh, env.admission, CONTROLLER, snap.(finalizers := snap.finalizers + {CLEANUP}));
      CommitShard(sl, sh);
      if reply.Done? { AddedKeeps(sl.sh, sh, snap); }
    } else {
      UpdateIsWritten(sl.sh, env.admission, CONTROLLER, snap.(finalizers := snap.finalizers - {CLEANUP}));
      var (reply, sh) := UpdateCapp(sl.sh, env.admission, CONTROLLER, snap.(finalizers := snap.finalizers - {CLEANUP}));
      CommitShard(sl, sh);
      if reply.Done? { RemovedKeeps(sl.sh, sh, snap); }
    }
  }

  /** Only the entry of one cluster differs, and a new entry is not being deleted. */
  predicate WorkWritten(a: Shard, b: Shard, cluster: string) {
    && b.capp == a.capp
    && (forall c :: c in b.works && c != cluster ==> c in a.works && b.works[c] == a.works[c])
    && (cluster in b.works ==> cluster != "" || cluster in a.works)
  }

  lemma WorkWriteKeeps(a: Shard, b: Shard, cluster: string, s: Syncing)
    requires HomeInv(a, s) && WorkWritten(a, b, cluster)
    requires s.CreatingWork? || s.UpdatingWork? || s.DeletingWork?
    requires s.DeletingWork? ==> (cluster in b.works ==> cluster in a.works)
    requires !s.DeletingWork? ==> cluster == Placement(s.snap)
    requires !s.DeletingWork? && cluster in b.works && b.works[cluster].deleting ==>
      cluster in a.works && a.works[cluster].deleting
    ensures HomeInv(b, SyncingIdle)
  {
  }

  lemma WorkWriteIs(sl: Slice, env: Env)
    ensures sl.s.CreatingWork? ==>
      WorkWritten(sl.sh, CreateWork(sl.sh, Placement(sl.s.snap), sl.s.manifests).1, Placement(sl.s.snap))
    ensures sl.s.UpdatingWork? ==>
      WorkWritten(sl.sh, UpdateWork(sl.sh, Placement(sl.s.snap), sl.s.work.(manifests := sl.s.manifests)).1,
                  Placement(sl.s.snap))
    ensures sl.s.DeletingWork? ==> WorkWritten(sl.sh, DeleteWork(sl.sh, sl.s.snap.site).1, sl.s.snap.site)
  {
  }

  lemma SafeSyncWork(k: Key, sl: Slice, env: Env, next: Slice)
    requires SafeInv(sl) && SyncStep(k, sl, env) == Some(next)
    requires sl.s.CreatingWork? || sl.s.UpdatingWork? || sl.s.DeletingWork?
    ensures HomeInv(next.sh, next.s)
  {
    assert HomeInv(sl.sh, sl.s);
    WorkWriteIs(sl, env);
    WorkWriteKeeps(sl.sh, next.sh, if sl.s.DeletingWork? then sl.s.snap.site else Placement(sl.s.snap), sl.s);
  }

  lemma SafeFetch(k: Key, sl: Slice, env: Env, next: Slice)
    requires SafeInv(sl) && SyncStep(k, sl, env) == Some(next) && (sl.s.SyncingIdle? || sl.s.FetchingCapp?)
    ensures HomeInv(next.sh, next.s)
  {
  }

  lemma SafeSyncRead(k: Key, sl: Slice, env: Env, next: Slice)
    requires SafeInv(sl) && SyncStep(k, sl, env) == Some(next)
    requires sl.s.Assembling? || sl.s.LookingUpWork? || sl.s.FindingWork?
    ensures HomeInv(next.sh, next.s)
  {
  }

  lemma SafeSync(k: Key, sl: Slice, env: Env, next: Slice)
    requires SafeInv(sl) && SyncStep(k, sl, env) == Some(next)
    ensures HomeInv(next.sh, next.s)
  {
    if sl.s.AddingFinalizer? || sl.s.RemovingFinalizer? {
      SafeSyncCapp(k, sl, env, next);
    } else if sl.s.CreatingWork? || sl.s.UpdatingWork? || sl.s.DeletingWork? {
      SafeSyncWork(k, sl, env, next);
    } else if sl.s.SyncingIdle? || sl.s.FetchingCapp? {
      SafeFetch(k, sl, env, next);
    } else {
      SafeSyncRead(k, sl, env, next);
    }
  }

  lemma SafeUnanswered(k: Key, sl: Slice, act: Act, next: Slice)
    requires SafeInv(sl) && Step(k, sl, act) == Some(next) && KeepsAt(sl, act)
    requires act.PlaceUnanswered? || act.SyncUnanswered?
    ensures HomeInv(next.sh, next.s)
  {
    var done := UnansweredIs(k, sl, act, next);
    if act.PlaceUnanswered? {
      SafePlace(sl, act.env, done);
      FollowsKeeps(sl.sh, done.sh, sl.s);
    } else {
      SafeSync(k, sl, act.env, done);
    }
  }

  /** Every step of anybody keeps the invariant, as long as no status write moves a placed Capp. */
  lemma SafeStep(k: Key, sl: Slice, act: Act, next: Slice)
    requires SafeInv(sl) && Step(k, sl, act) == Some(next) && KeepsAt(sl, act)
    ensures SafeInv(next)
  {
    VersionStep(k, sl, act, next);
    match act
    case Sync(env) => SafeSync(k, sl, env, next);
    case Place(env) =>
      SafePlace(sl, env, next);
      FollowsKeeps(sl.sh, next.sh, sl.s);
    case PlaceUnanswered(_) => SafeUnanswered(k, sl, act, next);
    case SyncUnanswered(_) => SafeUnanswered(k, sl, act, next);
    case Crash =>
    case PlaceFails =>
    case SyncFails =>
    case Edit(_, _, _, _, _, _) =>
      SafeEdit(k, sl, act, next);
      FollowsKeeps(sl.sh, next.sh, sl.s);
    case _ =>
      SafeWorld(k, sl, act, next);
      FollowsKeeps(sl.sh, next.sh, sl.s);
  }
}
