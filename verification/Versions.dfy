/** What optimistic concurrency gives each reconcile, whatever the decisions are. */
module Versions {
  import opened Objects
  import opened Usernames
  import opened Decisions
  import opened Admission
  import opened Shards
  import opened Protocol

  /** A snapshot taken earlier: if its version is still the stored one, nothing has changed since. */
  predicate Knows(sh: Shard, snap: Capp) {
    && snap.uid <= sh.clock && snap.version <= sh.clock
    && (sh.capp.Some? && sh.capp.value.version == snap.version ==> sh.capp.value == snap)
  }

  predicate KnowsWork(sh: Shard, cluster: string, w: Work) {
    && w.version <= sh.clock
    && (cluster in sh.works && sh.works[cluster].version == w.version ==> sh.works[cluster] == w)
  }

  predicate Clocked(sh: Shard) {
    && (sh.capp.Some? ==>
          && sh.capp.value.uid <= sh.clock && sh.capp.value.version <= sh.clock
          && (sh.capp.value.deleting ==> sh.capp.value.finalizers != {}))
    && (forall c :: c in sh.works ==>
          sh.works[c].version <= sh.clock && (sh.works[c].deleting ==> sh.works[c].finalizers != {}))
  }

  predicate FromOrigin(cluster: string, origin: Origin) {
    && (origin.site != "" || origin.config.placements != [])
    && Resolve(origin.config, origin.site, origin.lookup) == Cluster(cluster)
  }

  predicate PlacingKnows(sh: Shard, p: Placing) {
    match p
    case PlacingIdle => true
    case ReadingConfig => true
    case ReadingCapp(_) => true
    case Choosing(_, snap) => Knows(sh, snap)
    case WritingStatus(snap, c, origin) => Knows(sh, snap) && FromOrigin(c, origin) && origin.site == snap.spec.site
    case WritingAnnotation(snap, c, origin) =>
      Knows(sh, snap) && FromOrigin(c, origin) && origin.site == snap.spec.site && snap.site == c
  }

  predicate SyncingKnows(sh: Shard, s: Syncing) {
    match s
    case SyncingIdle => true
    case FetchingCapp => true
    case AddingFinalizer(snap) => Knows(sh, snap) && !snap.deleting
    case Assembling(snap) => Knows(sh, snap) && !snap.deleting
    case LookingUpWork(snap, _) => Knows(sh, snap) && !snap.deleting
    case CreatingWork(snap, _) => Knows(sh, snap) && !snap.deleting
    case UpdatingWork(snap, _, w) => Knows(sh, snap) && !snap.deleting && KnowsWork(sh, Placement(snap), w)
    case FindingWork(snap) => Knows(sh, snap) && snap.deleting
    case DeletingWork(snap) => Knows(sh, snap) && snap.deleting
    case RemovingFinalizer(snap) => Knows(sh, snap) && snap.deleting
  }

  predicate VersionInv(sl: Slice) {
    Clocked(sl.sh) && PlacingKnows(sl.sh, sl.p) && SyncingKnows(sl.sh, sl.s)
  }

  /** Every change gets a version that no earlier snapshot can have. */
  predicate Moves(a: Shard, b: Shard) {
    && a.clock <= b.clock
    && (b.capp == a.capp || b.capp.None? || a.clock < b.capp.value.version <= b.clock)
    && (forall c :: c in b.works ==>
          (c in a.works && b.works[c] == a.works[c]) || a.clock < b.works[c].version <= b.clock)
  }

  lemma PcsStable(a: Shard, b: Shard, p: Placing, s: Syncing)
    requires PlacingKnows(a, p) && SyncingKnows(a, s) && Moves(a, b)
    ensures PlacingKnows(b, p) && SyncingKnows(b, s)
  {
  }

  lemma WriteMoves(sh: Shard, c: Capp)
    requires Clocked(sh) && sh.capp.Some? && c.uid == sh.capp.value.uid && c.deleting == sh.capp.value.deleting
    ensures Moves(sh, Write(sh, c)) && Clocked(Write(sh, c))
    ensures Knows(Write(sh, c), Written(sh, c))
  {
  }

  lemma UpdateCappMoves(sh: Shard, env: AdmissionEnv, user: string, req: Capp)
    requires Clocked(sh)
    ensures var (reply, next) := UpdateCapp(sh, env, user, req);
      && Moves(sh, next) && Clocked(next)
      && (reply.Done? ==> Knows(next, reply.value))
  {
    if sh.capp.Some? {
      var cur := sh.capp.value;
      var merged := cur.(finalizers := req.finalizers, labels := req.labels,
                         annotations := req.annotations, spec := req.spec);
      var admitted := Admit(env, user, cur.spec.hostname, merged);
      if admitted.Some? { WriteMoves(sh, admitted.value); }
    }
  }

  lemma UpdateStatusMoves(sh: Shard, req: Capp)
    requires Clocked(sh)
    ensures var (reply, next) := UpdateStatus(sh, req);
      && Moves(sh, next) && Clocked(next)
      && (reply.Done? ==>
            && Knows(next, reply.value) && reply.value.site == req.site
            && reply.value.spec == sh.capp.value.spec)
  {
    if sh.capp.Some? {
      WriteMoves(sh, sh.capp.value.(site := req.site, report := req.report));
    }
  }

  lemma PutWorkMoves(sh: Shard, cluster: string, w: Work)
    requires Clocked(sh) && cluster in sh.works
    ensures Moves(sh, PutWork(sh, cluster, w)) && Clocked(PutWork(sh, cluster, w))
  {
  }

  lemma CommitShard(sl: Slice, sh: Shard)
    ensures Commit(sl, sh).sh == sh && Commit(sl, sh).p == sl.p && Commit(sl, sh).s == sl.s
  {
  }

  lemma VersionPlace(k: Key, sl: Slice, env: Env, next: Slice)
    requires VersionInv(sl) && PlaceStep(sl, env) == Some(next)
    ensures VersionInv(next) && Moves(sl.sh, next.sh)
  {
    if sl.p.WritingStatus? {
      VersionWriteStatus(sl, env, next);
    } else if sl.p.WritingAnnotation? {
      VersionWriteAnnotation(sl, env, next);
    } else {
      VersionPlaceRead(sl, env, next);
    }
  }

  lemma VersionPlaceRead(sl: Slice, env: Env, next: Slice)
    requires VersionInv(sl) && PlaceStep(sl, env) == Some(next) && !sl.p.WritingStatus? && !sl.p.WritingAnnotation?
    ensures VersionInv(next) && Moves(sl.sh, next.sh)
  {
  }

  lemma VersionWriteAnnotation(sl: Slice, env: Env, next: Slice)
    requires VersionInv(sl) && PlaceStep(sl, env) == Some(next) && sl.p.WritingAnnotation?
    ensures VersionInv(next) && Moves(sl.sh, next.sh)
  {
    var req := Annotate(sl.p.snap, sl.p.cluster);
    UpdateCappMoves(sl.sh, env.admission, CONTROLLER, req);
    CommitShard(sl, UpdateCapp(sl.sh, env.admission, CONTROLLER, req).1);
    PcsStable(sl.sh, next.sh, sl.p, sl.s);
  }

  lemma VersionWriteStatus(sl: Slice, env: Env, next: Slice)
    requires VersionInv(sl) && PlaceStep(sl, env) == Some(next) && sl.p.WritingStatus?
    ensures VersionInv(next) && Moves(sl.sh, next.sh)
  {
    var req := sl.p.snap.(site := sl.p.cluster);
    UpdateStatusMoves(sl.sh, req);
    CommitShard(sl, UpdateStatus(sl.sh, req).1);
    PcsStable(sl.sh, next.sh, sl.p, sl.s);
  }

  lemma VersionSyncCapp(k: Key, sl: Slice, env: Env, next: Slice)
    requires VersionInv(sl) && SyncStep(k, sl, env) == Some(next)
    requires sl.s.AddingFinalizer? || sl.s.RemovingFinalizer?
    ensures VersionInv(next) && Moves(sl.sh, next.sh)
  {
    var snap := sl.s.snap;
    var finalizers := if sl.s.AddingFinalizer? then snap.finalizers + {CLEANUP} else snap.finalizers - {CLEANUP};
    var req := snap.(finalizers := finalizers);
    UpdateCappMoves(sl.sh, env.admission, CONTROLLER, req);
    CommitShard(sl, UpdateCapp(sl.sh, env.admission, CONTROLLER, req).1);
    PcsStable(sl.sh, next.sh, sl.p, sl.s);
  }

  lemma VersionSyncWork(k: Key, sl: Slice, env: Env, next: Slice)
    requires VersionInv(sl) && SyncStep(k, sl, env) == Some(next)
    requires sl.s.CreatingWork? || sl.s.UpdatingWork? || sl.s.DeletingWork?
    ensures VersionInv(next) && Moves(sl.sh, next.sh)
  {
    WorkCallMoves(sl);
    PcsStable(sl.sh, next.sh, sl.p, sl.s);
  }

  lemma WorkCallMoves(sl: Slice)
    requires Clocked(sl.sh)
    ensures sl.s.CreatingWork? ==>
      var sh := CreateWork(sl.sh, Placement(sl.s.snap), sl.s.manifests).1; Moves(sl.sh, sh) && Clocked(sh)
    ensures sl.s.UpdatingWork? ==>
      var sh := UpdateWork(sl.sh, Placement(sl.s.snap), sl.s.work.(manifests := sl.s.manifests)).1;
      Moves(sl.sh, sh) && Clocked(sh)
    ensures sl.s.DeletingWork? ==> var sh := DeleteWork(sl.sh, sl.s.snap.site).1; Moves(sl.sh, sh) && Clocked(sh)
  {
    if sl.s.UpdatingWork? && Placement(sl.s.snap) in sl.sh.works {
      var cur := sl.sh.works[Placement(sl.s.snap)];
      PutWorkMoves(sl.sh, Placement(sl.s.snap), cur.(manifests := sl.s.manifests, configs := sl.s.work.configs));
    }
    if sl.s.DeletingWork? && sl.s.snap.site in sl.sh.works {
      PutWorkMoves(sl.sh, sl.s.snap.site, sl.sh.works[sl.s.snap.site].(deleting := true));
    }
  }

  lemma VersionFetch(k: Key, sl: Slice, env: Env, next: Slice)
    requires VersionInv(sl) && SyncStep(k, sl, env) == Some(next) && (sl.s.SyncingIdle? || sl.s.FetchingCapp?)
    ensures VersionInv(next) && Moves(sl.sh, next.sh)
  {
  }

  lemma VersionSyncRead(k: Key, sl: Slice, env: Env, next: Slice)
    requires VersionInv(sl) && SyncStep(k, sl, env) == Some(next)
    requires sl.s.Assembling? || sl.s.LookingUpWork? || sl.s.FindingWork?
    ensures VersionInv(next) && Moves(sl.sh, next.sh)
  {
  }

  lemma VersionSync(k: Key, sl: Slice, env: Env, next: Slice)
    requires VersionInv(sl) && SyncStep(k, sl, env) == Some(next)
    ensures VersionInv(next) && Moves(sl.sh, next.sh)
  {
    if sl.s.AddingFinalizer? || sl.s.RemovingFinalizer? {
      VersionSyncCapp(k, sl, env, next);
    } else if sl.s.CreatingWork? || sl.s.UpdatingWork? || sl.s.DeletingWork? {
      VersionSyncWork(k, sl, env, next);
    } else if sl.s.SyncingIdle? || sl.s.FetchingCapp? {
      VersionFetch(k, sl, env, next);
    } else {
      VersionSyncRead(k, sl, env, next);
    }
  }

  lemma CreateCappMoves(sh: Shard, env: AdmissionEnv, user: string, draft: Capp)
    requires Clocked(sh)
    ensures Moves(sh, CreateCapp(sh, env, user, draft).1) && Clocked(CreateCapp(sh, env, user, draft).1)
  {
  }

  lemma DeleteCappMoves(sh: Shard)
    requires Clocked(sh)
    ensures Moves(sh, DeleteCapp(sh)) && Clocked(DeleteCapp(sh))
  {
  }

  /** A committed change of the shard keeps what the snapshots know. */
  lemma CommitKnows(sl: Slice, sh: Shard)
    requires VersionInv(sl) && Moves(sl.sh, sh) && Clocked(sh)
    ensures VersionInv(Commit(sl, sh)) && Commit(sl, sh).sh == sh
  {
    CommitShard(sl, sh);
    PcsStable(sl.sh, sh, sl.p, sl.s);
  }

  lemma VersionUser(k: Key, sl: Slice, act: Act, next: Slice)
    requires VersionInv(sl) && Step(k, sl, act) == Some(next)
    requires act.Create? || act.Edit? || act.Delete? || act.Report?
    ensures VersionInv(next) && Moves(sl.sh, next.sh)
  {
    match act
    case Create(u, env, draft) =>
      CreateCappMoves(sl.sh, env.admission, u, draft);
      CommitKnows(sl, CreateCapp(sl.sh, env.admission, u, draft).1);
    case Edit(u, env, finalizers, labels, annotations, spec) =>
      var req := sl.sh.capp.value.(finalizers := finalizers, labels := labels, annotations := annotations,
                                   spec := spec);
      UpdateCappMoves(sl.sh, env.admission, u, req);
      CommitKnows(sl, UpdateCapp(sl.sh, env.admission, u, req).1);
    case Delete =>
      DeleteCappMoves(sl.sh);
      CommitKnows(sl, DeleteCapp(sl.sh));
    case Report(report) =>
      UpdateStatusMoves(sl.sh, sl.sh.capp.value.(report := report));
      CommitKnows(sl, UpdateStatus(sl.sh, sl.sh.capp.value.(report := report)).1);
  }

  lemma VersionWorld(k: Key, sl: Slice, act: Act, next: Slice)
    requires VersionInv(sl) && Step(k, sl, act) == Some(next)
    requires act.Agent? || act.PlaceFails? || act.SyncFails? || act.Crash? || act.Tick?
    ensures VersionInv(next) && Moves(sl.sh, next.sh)
  {
    match act
    case Agent(cluster, finalizers, status) =>
      if cluster in sl.sh.works {
        PutWorkMoves(sl.sh, cluster, sl.sh.works[cluster].(finalizers := finalizers, status := status));
      }
      PcsStable(sl.sh, next.sh, sl.p, sl.s);
    case Tick(clock) =>
      PcsStable(sl.sh, next.sh, sl.p, sl.s);
    case _ =>
  }

  lemma VersionUnanswered(k: Key, sl: Slice, act: Act, next: Slice)
    requires VersionInv(sl) && Step(k, sl, act) == Some(next) && (act.PlaceUnanswered? || act.SyncUnanswered?)
    ensures VersionInv(next) && Moves(sl.sh, next.sh)
  {
    var done := UnansweredIs(k, sl, act, next);
    if act.PlaceUnanswered? {
      VersionPlace(k, sl, act.env, done);
    } else {
      VersionSync(k, sl, act.env, done);
    }
  }

  /** Every step, of anybody, keeps what the snapshots know. */
  lemma VersionStep(k: Key, sl: Slice, act: Act, next: Slice)
    requires VersionInv(sl) && Step(k, sl, act) == Some(next)
    ensures VersionInv(next) && Moves(sl.sh, next.sh)
  {
    if act.Place? {
      VersionPlace(k, sl, act.env, next);
    } else if act.Sync? {
      VersionSync(k, sl, act.env, next);
    } else if act.Create? || act.Edit? || act.Delete? || act.Report? {
      VersionUser(k, sl, act, next);
    } else if act.PlaceUnanswered? || act.SyncUnanswered? {
      VersionUnanswered(k, sl, act, next);
    } else {
      VersionWorld(k, sl, act, next);
    }
  }
}
