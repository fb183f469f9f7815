/** Uninterrupted reconciles, as runs of single steps, and what they leave behind. */
module Turns {
  import opened Objects
  import opened Usernames
  import opened Decisions
  import opened Assembly
  import opened Admission
  import opened Shards
  import opened Protocol
  import opened Versions
  import opened Safety

  function PlacingLeft(p: Placing): nat {
    match p
    case PlacingIdle => 0
    case ReadingConfig => 5
    case ReadingCapp(_) => 4
    case Choosing(_, _) => 3
    case WritingStatus(_, _, _) => 2
    case WritingAnnotation(_, _, _) => 1
  }

  function SyncingLeft(s: Syncing): nat {
    match s
    case SyncingIdle => 0
    case FetchingCapp => 6
    case AddingFinalizer(_) => 5
    case Assembling(_) => 4
    case LookingUpWork(_, _) => 3
    case CreatingWork(_, _) => 2
    case UpdatingWork(_, _, _) => 2
    case FindingWork(_) => 2
    case DeletingWork(_) => 1
    case RemovingFinalizer(_) => 1
  }

  lemma PlaceGoesOn(sl: Slice, env: Env, next: Slice)
    requires PlaceStep(sl, env) == Some(next) && sl.p != PlacingIdle
    ensures PlacingLeft(next.p) < PlacingLeft(sl.p)
  {
  }

  lemma SyncGoesOn(k: Key, sl: Slice, env: Env, next: Slice)
    requires SyncStep(k, sl, env) == Some(next) && sl.s != SyncingIdle
    ensures SyncingLeft(next.s) < SyncingLeft(sl.s)
  {
    if sl.s.AddingFinalizer? || sl.s.RemovingFinalizer? {
      SyncWriteGoesOn(k, sl, env, next);
    } else {
      SyncOtherGoesOn(k, sl, env, next);
    }
  }

  lemma SyncWriteGoesOn(k: Key, sl: Slice, env: Env, next: Slice)
    requires SyncStep(k, sl, env) == Some(next) && (sl.s.AddingFinalizer? || sl.s.RemovingFinalizer?)
    ensures SyncingLeft(next.s) < SyncingLeft(sl.s)
  {
  }

  lemma SyncOtherGoesOn(k: Key, sl: Slice, env: Env, next: Slice)
    requires SyncStep(k, sl, env) == Some(next) && sl.s != SyncingIdle
    requires !sl.s.AddingFinalizer? && !sl.s.RemovingFinalizer?
    ensures SyncingLeft(next.s) < SyncingLeft(sl.s)
  {
  }

  /** The placement reconcile goes on to its end, alone. It stops early only where the source panics. */
  function FinishPlace(sl: Slice, env: Env): Slice
    decreases PlacingLeft(sl.p)
  {
    if sl.p == PlacingIdle then sl
    else
      match PlaceStep(sl, env)
      case Some(next) => PlaceGoesOn(sl, env, next); FinishPlace(next, env)
      case None => sl
  }

  function FinishSync(k: Key, sl: Slice, env: Env): Slice
    decreases SyncingLeft(sl.s)
  {
    if sl.s == SyncingIdle then sl
    else
      match SyncStep(k, sl, env)
      case Some(next) => SyncGoesOn(k, sl, env, next); FinishSync(k, next, env)
      case None => sl
  }

  /** The slice reached by a list of steps. */
  function Iterate(k: Key, sl: Slice, acts: seq<Act>): Option<Slice>
    decreases |acts|
  {
    if acts == [] then Some(sl)
    else
      match Step(k, sl, acts[0])
      case Some(next) => Iterate(k, next, acts[1..])
      case None => None
  }

  /** Finishing a reconcile is a run of the step relation. */
  lemma {:induction false} FinishPlaceIsRun(k: Key, sl: Slice, env: Env) returns (acts: seq<Act>)
    ensures forall a :: a in acts ==> a == Place(env)
    ensures Iterate(k, sl, acts) == Some(FinishPlace(sl, env))
    decreases PlacingLeft(sl.p)
  {
    acts := [];
    if sl.p != PlacingIdle && PlaceStep(sl, env).Some? {
      var next := PlaceStep(sl, env).value;
      PlaceGoesOn(sl, env, next);
      var rest := FinishPlaceIsRun(k, next, env);
      acts := [Place(env)] + rest;
      assert acts[1..] == rest;
    }
  }

  lemma {:induction false} FinishSyncIsRun(k: Key, sl: Slice, env: Env) returns (acts: seq<Act>)
    ensures forall a :: a in acts ==> a == Sync(env)
    ensures Iterate(k, sl, acts) == Some(FinishSync(k, sl, env))
    decreases SyncingLeft(sl.s)
  {
    acts := [];
    if sl.s != SyncingIdle && SyncStep(k, sl, env).Some? {
      var next := SyncStep(k, sl, env).value;
      SyncGoesOn(k, sl, env, next);
      var rest := FinishSyncIsRun(k, next, env);
      acts := [Sync(env)] + rest;
      assert acts[1..] == rest;
    }
  }

  /* ----- Writes that admission leaves as they are ----- */

  /** The webhooks let the controllers' writes of this specification through as they are. */
  predicate Accepts(env: Env, spec: CappSpec) {
    && env.config.Some? && env.admission.config == env.config
    && MutateSpec(spec, env.config.value) == spec && Valid(env.admission, spec, spec.hostname)
  }

  lemma AcceptsAdmits(env: Env, c: Capp)
    requires Accepts(env, c.spec)
    ensures Admit(env.admission, CONTROLLER, c.spec.hostname, c) == Some(c)
  {
    ControllerIsExcluded();
  }

  /* ----- What one whole reconcile does to a shard ----- */

  /** How a placement reconcile that runs alone ends. */
  function PlaceEnd(sh: Shard, env: Env): Slice {
    FinishPlace(Slice(sh, false, ReadingConfig, false, SyncingIdle), env)
  }

  function PlaceTurn(sh: Shard, env: Env): Shard {
    PlaceEnd(sh, env).sh
  }

  /** How a sync that runs alone ends. */
  function SyncEnd(k: Key, sh: Shard, env: Env): Slice {
    FinishSync(k, Slice(sh, false, PlacingIdle, false, FetchingCapp), env)
  }

  function SyncTurn(k: Key, sh: Shard, env: Env): Shard {
    SyncEnd(k, sh, env).sh
  }

  /** The part of a sync after the finalizer: write the ManifestWork, or nothing where none can stand. */
  function PutManifests(sh: Shard, cluster: string, ms: seq<Manifest>): Shard {
    if cluster in sh.works then PutWork(sh, cluster, sh.works[cluster].(manifests := ms))
    else CreateWork(sh, cluster, ms).1
  }

  predicate CanPut(sh: Shard, cluster: string) {
    cluster != "" || cluster in sh.works
  }

  lemma FinishFromAssembling(k: Key, sl: Slice, env: Env, snap: Capp)
    requires sl.s == Assembling(snap)
    ensures FinishSync(k, sl, env).sh ==
      match Assemble(k, snap, env.resources)
      case Ok(ms) => PutManifests(sl.sh, Placement(snap), ms)
      case Err => sl.sh
    ensures Assemble(k, snap, env.resources).Err? || !CanPut(sl.sh, Placement(snap)) ==> FinishSync(k, sl, env).sWaiting
  {
    match Assemble(k, snap, env.resources)
    case Err =>
      assert FinishSync(k, sl, env) == FinishSync(k, SyncAgain(sl), env);
    case Ok(ms) =>
      var found := sl.(s := LookingUpWork(snap, ms));
      assert FinishSync(k, sl, env) == FinishSync(k, found, env);
      FinishFromLookup(k, found, env, snap, ms);
  }

  lemma FinishFromLookup(k: Key, sl: Slice, env: Env, snap: Capp, ms: seq<Manifest>)
    requires sl.s == LookingUpWork(snap, ms)
    ensures FinishSync(k, sl, env).sh == PutManifests(sl.sh, Placement(snap), ms)
    ensures !CanPut(sl.sh, Placement(snap)) ==> FinishSync(k, sl, env).sWaiting
  {
    var next := SyncStep(k, sl, env).value;
    assert FinishSync(k, sl, env) == FinishSync(k, next, env);
    var last := SyncStep(k, next, env).value;
    assert FinishSync(k, next, env) == FinishSync(k, last, env) == last;
  }

  lemma SyncTurnLive(k: Key, sh: Shard, env: Env)
    requires sh.capp.Some? && !sh.capp.value.deleting
    ensures var c := sh.capp.value;
      var (reply, sh1) := if CLEANUP in c.finalizers then (Done(c), sh)
                          else UpdateCapp(sh, env.admission, CONTROLLER, c.(finalizers := c.finalizers + {CLEANUP}));
      && SyncTurn(k, sh, env) ==
        (if !reply.Done? then sh1
         else match Assemble(k, c, env.resources)
              case Ok(ms) => PutManifests(sh1, Placement(c), ms)
              case Err => sh1)
      && (!reply.Done? || Assemble(k, c, env.resources).Err? || !CanPut(sh1, Placement(c)) ==>
            SyncEnd(k, sh, env).sWaiting)
  {
    var c := sh.capp.value;
    var sl := Slice(sh, false, PlacingIdle, false, FetchingCapp);
    var next := SyncStep(k, sl, env).value;
    assert FinishSync(k, sl, env) == FinishSync(k, next, env);
    if CLEANUP in c.finalizers {
      FinishFromAssembling(k, next, env, c);
    } else {
      var later := SyncStep(k, next, env).value;
      assert FinishSync(k, next, env) == FinishSync(k, later, env);
      if later.s != SyncingIdle {
        FinishFromAssembling(k, later, env, c);
      }
    }
  }

  lemma SyncTurnNone(k: Key, sh: Shard, env: Env)
    requires sh.capp.None?
    ensures SyncTurn(k, sh, env) == sh
  {
    var sl := Slice(sh, false, PlacingIdle, false, FetchingCapp);
    assert FinishSync(k, sl, env) == FinishSync(k, SyncStep(k, sl, env).value, env);
  }

  lemma SyncTurnDeleting(k: Key, sh: Shard, env: Env)
    requires sh.capp.Some? && sh.capp.value.deleting
    ensures var c := sh.capp.value;
      SyncTurn(k, sh, env) ==
        if CLEANUP !in c.finalizers then sh
        else if c.site in sh.works then DeleteWork(sh, c.site).1
        else UpdateCapp(sh, env.admission, CONTROLLER, c.(finalizers := c.finalizers - {CLEANUP})).1
    ensures SyncEnd(k, sh, env).sWaiting
  {
    var sl := Slice(sh, false, PlacingIdle, false, FetchingCapp);
    var next := SyncStep(k, sl, env).value;
    assert FinishSync(k, sl, env) == FinishSync(k, next, env);
    if next.s != SyncingIdle {
      var later := SyncStep(k, next, env).value;
      assert FinishSync(k, next, env) == FinishSync(k, later, env);
      var last := SyncStep(k, later, env).value;
      assert FinishSync(k, later, env) == FinishSync(k, last, env) == last;
    }
  }

  lemma PlaceTurnIs(sh: Shard, env: Env, cluster: string)
    requires sh.capp.Some? && env.config.Some?
    requires sh.capp.value.spec.site != "" || env.config.value.placements != []
    requires Resolve(env.config.value, sh.capp.value.spec.site, env.lookup) == Cluster(cluster)
    ensures var (reply, sh1) := UpdateStatus(sh, sh.capp.value.(site := cluster));
      && reply.Done?
      && PlaceTurn(sh, env) == UpdateCapp(sh1, env.admission, CONTROLLER, Annotate(reply.value, cluster)).1
      && (!UpdateCapp(sh1, env.admission, CONTROLLER, Annotate(reply.value, cluster)).0.Done? ==>
            PlaceEnd(sh, env).pWaiting)
  {
    var sl := Slice(sh, false, ReadingConfig, false, SyncingIdle);
    var s1 := PlaceStep(sl, env).value;
    var s2 := PlaceStep(s1, env).value;
    var s3 := PlaceStep(s2, env).value;
    assert FinishPlace(sl, env) == FinishPlace(s1, env) == FinishPlace(s2, env) == FinishPlace(s3, env);
    FinishFromStatus(s3, env);
  }

  /** Without a configuration, a Capp or a decision, nothing is written. */
  lemma PlaceTurnElse(sh: Shard, env: Env)
    requires env.config.None? || sh.capp.None?
             || (&& (sh.capp.value.spec.site != "" || env.config.value.placements != [])
                 && !Resolve(env.config.value, sh.capp.value.spec.site, env.lookup).Cluster?)
    ensures PlaceTurn(sh, env) == sh
    ensures env.config.None? || sh.capp.Some? ==> PlaceEnd(sh, env).pWaiting
  {
    var sl := Slice(sh, false, ReadingConfig, false, SyncingIdle);
    var s1 := PlaceStep(sl, env).value;
    assert FinishPlace(sl, env) == FinishPlace(s1, env);
    if s1.p != PlacingIdle {
      var s2 := PlaceStep(s1, env).value;
      assert FinishPlace(s1, env) == FinishPlace(s2, env);
      if s2.p != PlacingIdle {
        var s3 := PlaceStep(s2, env).value;
        assert FinishPlace(s2, env) == FinishPlace(s3, env) == s3;
      }
    }
  }

  lemma FinishFromStatus(sl: Slice, env: Env)
    requires sl.p.WritingStatus?
    ensures var (reply, sh) := UpdateStatus(sl.sh, sl.p.snap.(site := sl.p.cluster));
      FinishPlace(sl, env).sh ==
        if reply.Done? then UpdateCapp(sh, env.admission, CONTROLLER, Annotate(reply.value, sl.p.cluster)).1 else sh
    ensures var (reply, sh) := UpdateStatus(sl.sh, sl.p.snap.(site := sl.p.cluster));
      reply.Done? && !UpdateCapp(sh, env.admission, CONTROLLER, Annotate(reply.value, sl.p.cluster)).0.Done? ==>
        FinishPlace(sl, env).pWaiting
  {
    var s1 := PlaceStep(sl, env).value;
    assert FinishPlace(sl, env) == FinishPlace(s1, env);
    if s1.p != PlacingIdle {
      var s2 := PlaceStep(s1, env).value;
      assert FinishPlace(s1, env) == FinishPlace(s2, env) == s2;
    }
  }

  /* ----- The other controller and the queues do not matter while a reconcile runs alone ----- */

  lemma {:induction false} FinishSyncAnywhere(k: Key, a: Slice, b: Slice, env: Env)
    requires a.sh == b.sh && a.s == b.s && a.s != SyncingIdle
    ensures FinishSync(k, a, env).sh == FinishSync(k, b, env).sh
    decreases SyncingLeft(a.s)
  {
    var an, bn := SyncStep(k, a, env).value, SyncStep(k, b, env).value;
    SyncGoesOn(k, a, env, an);
    SyncStepsAlike(k, a, b, env);
    assert FinishSync(k, a, env) == FinishSync(k, an, env);
    assert FinishSync(k, b, env) == FinishSync(k, bn, env);
    if an.s != SyncingIdle {
      FinishSyncAnywhere(k, an, bn, env);
    }
  }

  lemma SyncStepsAlike(k: Key, a: Slice, b: Slice, env: Env)
    requires a.sh == b.sh && a.s == b.s && a.s != SyncingIdle
    ensures SyncStep(k, a, env).value.sh == SyncStep(k, b, env).value.sh
    ensures SyncStep(k, a, env).value.s == SyncStep(k, b, env).value.s
  {
    if a.s.AddingFinalizer? || a.s.RemovingFinalizer? {
      FinalizerStepsAlike(k, a, b, env);
    } else if a.s.CreatingWork? || a.s.UpdatingWork? || a.s.DeletingWork? {
      WorkStepsAlike(k, a, b, env);
    } else {
      ReadStepsAlike(k, a, b, env);
    }
  }

  lemma FinalizerStepsAlike(k: Key, a: Slice, b: Slice, env: Env)
    requires a.sh == b.sh && a.s == b.s && (a.s.AddingFinalizer? || a.s.RemovingFinalizer?)
    ensures SyncStep(k, a, env).value.sh == SyncStep(k, b, env).value.sh
    ensures SyncStep(k, a, env).value.s == SyncStep(k, b, env).value.s
  {
    var snap := a.s.snap;
    var req := snap.(finalizers := if a.s.AddingFinalizer? then snap.finalizers + {CLEANUP}
                                   else snap.finalizers - {CLEANUP});
    var sh := UpdateCapp(a.sh, env.admission, CONTROLLER, req).1;
    CommitShard(a, sh);
    CommitShard(b, sh);
  }

  lemma WorkStepsAlike(k: Key, a: Slice, b: Slice, env: Env)
    requires a.sh == b.sh && a.s == b.s && (a.s.CreatingWork? || a.s.UpdatingWork? || a.s.DeletingWork?)
    ensures SyncStep(k, a, env).value.sh == SyncStep(k, b, env).value.sh
    ensures SyncStep(k, a, env).value.s == SyncStep(k, b, env).value.s
  {
  }

  lemma ReadStepsAlike(k: Key, a: Slice, b: Slice, env: Env)
    requires a.sh == b.sh && a.s == b.s
    requires a.s.FetchingCapp? || a.s.Assembling? || a.s.LookingUpWork? || a.s.FindingWork?
    ensures SyncStep(k, a, env).value.sh == SyncStep(k, b, env).value.sh
    ensures SyncStep(k, a, env).value.s == SyncStep(k, b, env).value.s
  {
  }

  lemma {:induction false} FinishPlaceAnywhere(a: Slice, b: Slice, env: Env)
    requires a.sh == b.sh && a.p == b.p && a.p != PlacingIdle
    ensures FinishPlace(a, env).sh == FinishPlace(b, env).sh
    decreases PlacingLeft(a.p)
  {
    PlaceStepsAlike(a, b, env);
    if PlaceStep(a, env).Some? {
      var an, bn := PlaceStep(a, env).value, PlaceStep(b, env).value;
      PlaceGoesOn(a, env, an);
      assert FinishPlace(a, env) == FinishPlace(an, env);
      assert FinishPlace(b, env) == FinishPlace(bn, env);
      if an.p != PlacingIdle {
        FinishPlaceAnywhere(an, bn, env);
      }
    }
  }

  predicate PlaceAlike(a: Slice, b: Slice, env: Env) {
    && PlaceStep(a, env).Some? == PlaceStep(b, env).Some?
    && (PlaceStep(a, env).Some? ==>
          && PlaceStep(a, env).value.sh == PlaceStep(b, env).value.sh
          && PlaceStep(a, env).value.p == PlaceStep(b, env).value.p)
  }

  lemma PlaceStepsAlike(a: Slice, b: Slice, env: Env)
    requires a.sh == b.sh && a.p == b.p && a.p != PlacingIdle
    ensures PlaceAlike(a, b, env)
  {
    if a.p.WritingStatus? || a.p.WritingAnnotation? {
      PlaceWritesAlike(a, b, env);
    } else {
      PlaceReadsAlike(a, b, env);
    }
  }

  lemma PlaceWritesAlike(a: Slice, b: Slice, env: Env)
    requires a.sh == b.sh && a.p == b.p && (a.p.WritingStatus? || a.p.WritingAnnotation?)
    ensures PlaceAlike(a, b, env)
  {
    var sh := if a.p.WritingStatus? then UpdateStatus(a.sh, a.p.snap.(site := a.p.cluster)).1
              else UpdateCapp(a.sh, env.admission, CONTROLLER, Annotate(a.p.snap, a.p.cluster)).1;
    CommitShard(a, sh);
    CommitShard(b, sh);
  }

  lemma PlaceReadsAlike(a: Slice, b: Slice, env: Env)
    requires a.sh == b.sh && a.p == b.p && a.p != PlacingIdle && !a.p.WritingStatus? && !a.p.WritingAnnotation?
    ensures PlaceAlike(a, b, env)
  {
  }

  /* ----- Create or update ----- */

  /** Only the entry of one cluster differs. It carries the manifests whatever was there before: an existing entry keeps
      its other fields, a new one has nothing else. */
  predicate Carries(a: Shard, b: Shard, cluster: string, ms: seq<Manifest>) {
    && b.works.Keys == a.works.Keys + {cluster}
    && b.works[cluster].manifests == ms
    && (if cluster in a.works
        then b.works[cluster].(version := a.works[cluster].version, manifests := a.works[cluster].manifests)
             == a.works[cluster]
        else b.works[cluster] == Work(b.works[cluster].version, false, {}, "", [""], ms))
    && (forall d :: d in a.works && d != cluster ==> b.works[d] == a.works[d])
  }

  lemma PutCarries(sh: Shard, cluster: string, ms: seq<Manifest>)
    requires cluster != "" && (cluster in sh.works && sh.works[cluster].deleting ==> sh.works[cluster].finalizers != {})
    ensures PutManifests(sh, cluster, ms).capp == sh.capp && Carries(sh, PutManifests(sh, cluster, ms), cluster, ms)
  {
  }

  lemma FinalizerWrite(sh: Shard, env: Env, c: Capp)
    requires sh.capp == Some(c) && !c.deleting
    requires Admit(env.admission, CONTROLLER, c.spec.hostname, c.(finalizers := c.finalizers + {CLEANUP})).Some?
    ensures var (reply, sh1) := UpdateCapp(sh, env.admission, CONTROLLER, c.(finalizers := c.finalizers + {CLEANUP}));
      reply.Done? && sh1.works == sh.works && sh1.capp.Some? && CLEANUP in sh1.capp.value.finalizers
  {
    UpdateIsWritten(sh, env.admission, CONTROLLER, c.(finalizers := c.finalizers + {CLEANUP}));
  }

  /** A whole sync of a placed live Capp leaves the assembled manifests in the entry of its cluster, alone, and the Capp
      under its finalizer. */
  lemma CreateOrUpdate(k: Key, sh: Shard, env: Env)
    requires sh.capp.Some? && !sh.capp.value.deleting && Placed(sh.capp.value) && Clocked(sh)
    requires Assemble(k, sh.capp.value, env.resources).Ok?
    requires CLEANUP !in sh.capp.value.finalizers ==>
      Admit(env.admission, CONTROLLER, sh.capp.value.spec.hostname,
            sh.capp.value.(finalizers := sh.capp.value.finalizers + {CLEANUP})).Some?
    ensures var after := SyncTurn(k, sh, env);
      && Carries(sh, after, Placement(sh.capp.value), Assemble(k, sh.capp.value, env.resources).value)
      && after.capp.Some? && CLEANUP in after.capp.value.finalizers
  {
    var c := sh.capp.value;
    SyncTurnLive(k, sh, env);
    if CLEANUP !in c.finalizers {
      FinalizerWrite(sh, env, c);
      var sh1 := UpdateCapp(sh, env.admission, CONTROLLER, c.(finalizers := c.finalizers + {CLEANUP})).1;
      PutCarries(sh1, Placement(c), Assemble(k, c, env.resources).value);
    } else {
      PutCarries(sh, Placement(c), Assemble(k, c, env.resources).value);
    }
  }

  /** When a sync of a live Capp gets to the end, the ManifestWork of the annotated cluster carries the list. */
  lemma FinishedCarries(k: Key, sh: Shard, env: Env)
    requires sh.capp.Some? && !sh.capp.value.deleting
    ensures var c := sh.capp.value;
      && Clocked(sh) && Assemble(k, c, env.resources).Ok? && CanPut(sh, Placement(c))
      && (CLEANUP in c.finalizers
          || UpdateCapp(sh, env.admission, CONTROLLER, c.(finalizers := c.finalizers + {CLEANUP})).0.Done?) ==>
        var after := SyncTurn(k, sh, env);
        && Placement(c) in after.works
        && after.works[Placement(c)].manifests == Assemble(k, c, env.resources).value
  {
    var c := sh.capp.value;
    SyncTurnLive(k, sh, env);
    UpdateIsWritten(sh, env.admission, CONTROLLER, c.(finalizers := c.finalizers + {CLEANUP}));
    if Assemble(k, c, env.resources).Ok? && CanPut(sh, Placement(c)) && Clocked(sh) {
      var ms := Assemble(k, c, env.resources).value;
      PutLeaves(sh, Placement(c), ms);
      var sh1 := UpdateCapp(sh, env.admission, CONTROLLER, c.(finalizers := c.finalizers + {CLEANUP})).1;
      PutLeaves(sh1, Placement(c), ms);
    }
  }

  lemma PutLeaves(sh: Shard, cluster: string, ms: seq<Manifest>)
    requires CanPut(sh, cluster)
    requires cluster in sh.works && sh.works[cluster].deleting ==> sh.works[cluster].finalizers != {}
    ensures var b := PutManifests(sh, cluster, ms); cluster in b.works && b.works[cluster].manifests == ms
  {
  }

  /** A failed assembly leaves all ManifestWorks as they are. */
  lemma DanglingWritesNothing(k: Key, sh: Shard, env: Env)
    requires sh.capp.Some? && !sh.capp.value.deleting && Assemble(k, sh.capp.value, env.resources).Err?
    ensures SyncTurn(k, sh, env).works == sh.works
  {
    SyncTurnLive(k, sh, env);
  }

  /** A sync of a settled Capp changes nothing at all. */
  lemma SettledStays(k: Key, sh: Shard, env: Env)
    requires sh.capp.Some? && !sh.capp.value.deleting && CLEANUP in sh.capp.value.finalizers
    requires Assemble(k, sh.capp.value, env.resources).Ok? && Placement(sh.capp.value) in sh.works
    requires sh.works[Placement(sh.capp.value)].manifests == Assemble(k, sh.capp.value, env.resources).value
    ensures SyncTurn(k, sh, env) == sh
  {
    SyncTurnLive(k, sh, env);
  }

  lemma FinalizerKeepsContent(sh: Shard, env: Env, c: Capp)
    requires sh.capp == Some(c) && !c.deleting
    requires Admit(env.admission, CONTROLLER, c.spec.hostname, c.(finalizers := c.finalizers + {CLEANUP}))
             == Some(c.(finalizers := c.finalizers + {CLEANUP}))
    ensures var sh1 := UpdateCapp(sh, env.admission, CONTROLLER, c.(finalizers := c.finalizers + {CLEANUP})).1;
      sh1.capp.Some? && SameContent(c, sh1.capp.value) && !sh1.capp.value.deleting && sh1.works == sh.works
  {
  }

  lemma SyncKeepsContent(k: Key, sh: Shard, env: Env)
    requires sh.capp.Some? && !sh.capp.value.deleting && Assemble(k, sh.capp.value, env.resources).Ok?
    requires Placed(sh.capp.value) && Clocked(sh)
    requires var c := sh.capp.value;
      CLEANUP !in c.finalizers ==>
        Admit(env.admission, CONTROLLER, c.spec.hostname, c.(finalizers := c.finalizers + {CLEANUP}))
        == Some(c.(finalizers := c.finalizers + {CLEANUP}))
    ensures var after := SyncTurn(k, sh, env);
      after.capp.Some? && SameContent(sh.capp.value, after.capp.value) && !after.capp.value.deleting
  {
    var c := sh.capp.value;
    var ms := Assemble(k, c, env.resources).value;
    SyncTurnLive(k, sh, env);
    if CLEANUP !in c.finalizers {
      FinalizerWrite(sh, env, c);
      FinalizerKeepsContent(sh, env, c);
      var sh1 := UpdateCapp(sh, env.admission, CONTROLLER, c.(finalizers := c.finalizers + {CLEANUP})).1;
      PutCarries(sh1, Placement(c), ms);
    } else {
      PutCarries(sh, Placement(c), ms);
    }
  }

  /** When admission has nothing to add, what was synced from the snapshot taken before the finalizer was written is
      what the stored Capp gives, and a second sync changes nothing at all. */
  lemma SyncTwice(k: Key, sh: Shard, env: Env)
    requires sh.capp.Some? && !sh.capp.value.deleting && Placed(sh.capp.value) && Clocked(sh)
    requires Assemble(k, sh.capp.value, env.resources).Ok?
    requires var c := sh.capp.value;
      CLEANUP !in c.finalizers ==>
        Admit(env.admission, CONTROLLER, c.spec.hostname, c.(finalizers := c.finalizers + {CLEANUP}))
        == Some(c.(finalizers := c.finalizers + {CLEANUP}))
    ensures var after := SyncTurn(k, sh, env);
      && after.capp.Some? && SameContent(sh.capp.value, after.capp.value)
      && Placement(after.capp.value) in after.works
      && after.works[Placement(after.capp.value)].manifests == Assemble(k, after.capp.value, env.resources).value
      && SyncTurn(k, after, env) == after
  {
    var after := SyncTurn(k, sh, env);
    CreateOrUpdate(k, sh, env);
    SyncKeepsContent(k, sh, env);
    SnapshotInsensitive(k, sh.capp.value, after.capp.value, env.resources);
    SettledStays(k, after, env);
  }
}
