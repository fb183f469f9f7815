/** Once the world is quiet, single steps of the controllers and agents drive every Capp to rest, in any fair
    interleaving. */
module Convergence {
  import opened Objects
  import opened Names
  import opened Usernames
  import opened Decisions
  import opened Assembly
  import opened Admission
  import opened Shards
  import opened Protocol
  import opened Versions
  import opened Safety
  import opened Queues
  import opened Systems
  import opened Guarantees
  import opened Turns
  import opened Progress

  /* ----- One move of one actor ----- */

  /** A controller makes the next call of its reconcile in flight, or starts one if the key waits, or does nothing. */
  function PlacerMoves(sl: Slice, env: Env): Slice {
    if sl.p == PlacingIdle && !sl.pWaiting then sl
    else match PlaceStep(sl, env) case Some(next) => next case None => sl
  }

  function SyncerMoves(k: Key, sl: Slice, env: Env): Slice {
    if sl.s == SyncingIdle && !sl.sWaiting then sl
    else match SyncStep(k, sl, env) case Some(next) => next case None => sl
  }

  function Moved(k: Key, sl: Slice, env: Env, actor: Actor): Slice {
    match actor
    case Placer => PlacerMoves(sl, env)
    case Syncer => SyncerMoves(k, sl, env)
    case WorkAgent => sl.(sh := AgentTurn(sl.sh))
  }

  /** The actors move in this order. */
  function Play(k: Key, sl: Slice, env: Env, actors: seq<Actor>): Slice
    decreases |actors|
  {
    if actors == [] then sl else Play(k, Moved(k, sl, env, actors[0]), env, actors[1..])
  }

  function Rounds(k: Key, sl: Slice, env: Env, rounds: seq<seq<Actor>>): Slice
    decreases |rounds|
  {
    if rounds == [] then sl else Rounds(k, Play(k, sl, env, rounds[0]), env, rounds[1..])
  }

  function Count(actors: seq<Actor>, a: Actor): nat {
    if actors == [] then 0 else (if actors[0] == a then 1 else 0) + Count(actors[1..], a)
  }

  /* ----- A quiet world, with reconciles in flight ----- */

  /** A placement reconcile in flight read the present configuration, is not about to panic, and, if its snapshot is
      still the stored Capp, chose the cluster that is chosen now. Whatever a sync in flight has read is allowed. */
  predicate InFlight(sh: Shard, p: Placing, env: Env) {
    match p
    case PlacingIdle => true
    case ReadingConfig => true
    case ReadingCapp(cfg) => env.config == Some(cfg)
    case Choosing(cfg, snap) => env.config == Some(cfg) && (snap.spec.site != "" || cfg.placements != [])
    case WritingStatus(snap, c, _) => sh.capp == Some(snap) ==> Chosen(snap, c, env)
    case WritingAnnotation(snap, c, _) => sh.capp == Some(snap) ==> Chosen(snap, c, env)
  }

  predicate AllQuiet(k: Key, sh: Shard, p: Placing, env: Env) {
    (sh.capp.Some? ==> Quiet(k, sh.capp.value, env)) && InFlight(sh, p, env)
  }

  predicate Good(k: Key, sl: Slice, env: Env) {
    SafeInv(sl) && QueueInv(k, sl, env.resources) && AllQuiet(k, sl.sh, sl.p, env)
  }

  lemma GoodIsCalm(k: Key, sl: Slice, env: Env)
    requires Good(k, sl, env)
    ensures Calm(k, sl.sh, env)
  {
    ReachableIsCalm(k, sl, env);
  }

  /** A step of the quiet world that leaves it quiet keeps the invariants. */
  lemma GoodGoesOn(k: Key, sl: Slice, act: Act, env: Env, next: Slice)
    requires Good(k, sl, env) && Step(k, sl, act) == Some(next) && KeepsAt(sl, act) && SteadyAt(act, env.resources)
    requires AllQuiet(k, next.sh, next.p, env)
    ensures Good(k, next, env)
  {
    SafeStep(k, sl, act, next);
    SafeNeverAdopts(sl, act);
    QueueStep(k, sl, act, env.resources, next);
  }

  /* ----- Steps of the placement controller ----- */

  lemma QuietChoice(k: Key, c: Capp, cluster: string, env: Env)
    requires Quiet(k, c, env) && Chosen(c, cluster, env)
    ensures Placed(c) ==> Placement(c) == cluster && c.site == cluster
    ensures Quiet(k, c.(site := cluster), env)
    ensures c.site == cluster ==> Quiet(k, Annotate(c, cluster), env)
  {
    assert Placement(Annotate(c, cluster)) == cluster;
  }

  lemma QuietSame(k: Key, c: Capp, d: Capp, env: Env)
    requires Quiet(k, c, env) && SameContent(c, d)
    ensures Quiet(k, d, env)
  {
    SnapshotInsensitive(k, c, d, env.resources);
  }

  /** What a write of the placement controller leaves: the same store after a refusal, or the new Capp. */
  lemma QuietAfterWrite(k: Key, a: Shard, b: Shard, c: Capp, env: Env)
    requires a.capp.Some? && Becomes(a, b, c) && Quiet(k, c, env)
    ensures b.capp.Some? && Quiet(k, b.capp.value, env)
  {
    QuietSame(k, c, b.capp.value, env);
  }

  lemma StatusKeeps(k: Key, sl: Slice, env: Env)
    requires Good(k, sl, env) && sl.p.WritingStatus?
    ensures KeepsAt(sl, Place(env))
  {
    if sl.sh.capp == Some(sl.p.snap) {
      QuietChoice(k, sl.p.snap, sl.p.cluster, env);
    }
  }

  lemma QuietStatusWrite(k: Key, sl: Slice, env: Env, next: Slice)
    requires Good(k, sl, env) && PlaceStep(sl, env) == Some(next) && sl.p.WritingStatus?
    ensures AllQuiet(k, next.sh, next.p, env)
  {
    var snap, cluster := sl.p.snap, sl.p.cluster;
    var (reply, sh) := UpdateStatus(sl.sh, snap.(site := cluster));
    CommitShard(sl, sh);
    if sl.sh.capp == Some(snap) {
      QuietChoice(k, snap, cluster, env);
      StatusWrite(sl.sh, cluster);
      QuietAfterWrite(k, sl.sh, sh, snap.(site := cluster), env);
    } else {
      StaleStatusFails(sl.sh, snap, cluster);
    }
  }

  lemma StaleStatusFails(sh: Shard, snap: Capp, cluster: string)
    requires Knows(sh, snap) && sh.capp != Some(snap)
    ensures !UpdateStatus(sh, snap.(site := cluster)).0.Done? && UpdateStatus(sh, snap.(site := cluster)).1 == sh
  {
  }

  lemma StaleAnnotationFails(sh: Shard, env: Env, snap: Capp, cluster: string)
    requires Knows(sh, snap) && sh.capp != Some(snap)
    ensures var (reply, b) := UpdateCapp(sh, env.admission, CONTROLLER, Annotate(snap, cluster));
      !reply.Done? && b == sh
  {
  }

  lemma QuietAnnotationWrite(k: Key, sl: Slice, env: Env, next: Slice)
    requires Good(k, sl, env) && PlaceStep(sl, env) == Some(next) && sl.p.WritingAnnotation?
    ensures AllQuiet(k, next.sh, next.p, env)
  {
    var snap, cluster := sl.p.snap, sl.p.cluster;
    var (reply, sh) := UpdateCapp(sl.sh, env.admission, CONTROLLER, Annotate(snap, cluster));
    CommitShard(sl, sh);
    if sl.sh.capp == Some(snap) {
      QuietChoice(k, snap, cluster, env);
      AnnotationWrite(k, sl.sh, env, snap, cluster);
      QuietAfterWrite(k, sl.sh, sh, Annotate(snap, cluster), env);
    } else {
      StaleAnnotationFails(sl.sh, env, snap, cluster);
    }
  }

  lemma QuietPlaceRead(k: Key, sl: Slice, env: Env)
    requires Good(k, sl, env) && !sl.p.WritingStatus? && !sl.p.WritingAnnotation?
    requires sl.p == PlacingIdle ==> sl.pWaiting
    ensures PlaceStep(sl, env).Some?
    ensures KeepsAt(sl, Place(env))
    ensures var next := PlaceStep(sl, env).value; next.sh == sl.sh && next.s == sl.s && InFlight(next.sh, next.p, env)
  {
    if sl.p.Choosing? {
      QuietChoose(sl, env);
    } else {
      QuietStart(k, sl, env);
    }
  }

  lemma QuietChoose(sl: Slice, env: Env)
    requires InFlight(sl.sh, sl.p, env) && sl.p.Choosing?
    ensures PlaceStep(sl, env).Some?
    ensures var next := PlaceStep(sl, env).value; next.sh == sl.sh && next.s == sl.s && InFlight(next.sh, next.p, env)
  {
  }

  lemma QuietStart(k: Key, sl: Slice, env: Env)
    requires AllQuiet(k, sl.sh, sl.p, env) && (sl.p.PlacingIdle? || sl.p.ReadingConfig? || sl.p.ReadingCapp?)
    requires sl.p == PlacingIdle ==> sl.pWaiting
    ensures PlaceStep(sl, env).Some?
    ensures var next := PlaceStep(sl, env).value; next.sh == sl.sh && next.s == sl.s && InFlight(next.sh, next.p, env)
  {
  }

  lemma PlaceStepGood(k: Key, sl: Slice, env: Env) returns (next: Slice)
    requires Good(k, sl, env) && (sl.p == PlacingIdle ==> sl.pWaiting)
    ensures PlaceStep(sl, env) == Some(next) && Good(k, next, env) && next.s == sl.s
  {
    if sl.p.WritingStatus? {
      next := PlaceStep(sl, env).value;
      CommitShard(sl, UpdateStatus(sl.sh, sl.p.snap.(site := sl.p.cluster)).1);
      StatusKeeps(k, sl, env);
      QuietStatusWrite(k, sl, env, next);
    } else if sl.p.WritingAnnotation? {
      next := PlaceStep(sl, env).value;
      CommitShard(sl, UpdateCapp(sl.sh, env.admission, CONTROLLER, Annotate(sl.p.snap, sl.p.cluster)).1);
      QuietAnnotationWrite(k, sl, env, next);
    } else {
      QuietPlaceRead(k, sl, env);
      next := PlaceStep(sl, env).value;
    }
    GoodGoesOn(k, sl, Place(env), env, next);
  }

  /* ----- Steps of the sync controller ----- */

  lemma InFlightStays(a: Shard, b: Shard, p: Placing, env: Env)
    requires PlacingKnows(a, p) && InFlight(a, p, env) && Moves(a, b)
    ensures InFlight(b, p, env)
  {
  }

  lemma FinalizersWritten(sh: Shard, env: Env, c: Capp, finalizers: set<string>)
    requires sh.capp == Some(c) && Accepts(env, c.spec)
    ensures var b := UpdateCapp(sh, env.admission, CONTROLLER, c.(finalizers := finalizers)).1;
      b.capp.Some? ==> SameContent(c, b.capp.value)
  {
    AcceptsAdmits(env, c.(finalizers := finalizers));
  }

  lemma StaleFinalizersFail(sh: Shard, env: Env, snap: Capp, finalizers: set<string>)
    requires Knows(sh, snap) && sh.capp != Some(snap)
    ensures UpdateCapp(sh, env.admission, CONTROLLER, snap.(finalizers := finalizers)).1 == sh
  {
  }

  /** A write that touches nothing but finalizers keeps the Capp quiet. */
  lemma QuietFinalizers(k: Key, a: Shard, b: Shard, env: Env, snap: Capp, finalizers: set<string>)
    requires Knows(a, snap) && (a.capp.Some? ==> Quiet(k, a.capp.value, env))
    requires b == UpdateCapp(a, env.admission, CONTROLLER, snap.(finalizers := finalizers)).1
    ensures b.capp.Some? ==> Quiet(k, b.capp.value, env)
  {
    if a.capp == Some(snap) {
      FinalizersWritten(a, env, snap, finalizers);
      if b.capp.Some? {
        QuietSame(k, snap, b.capp.value, env);
      }
    } else {
      StaleFinalizersFail(a, env, snap, finalizers);
    }
  }

  lemma QuietSyncCapp(k: Key, sl: Slice, env: Env, next: Slice)
    requires Good(k, sl, env) && SyncStep(k, sl, env) == Some(next)
    requires sl.s.AddingFinalizer? || sl.s.RemovingFinalizer?
    ensures (next.sh.capp.Some? ==> Quiet(k, next.sh.capp.value, env)) && next.p == sl.p
  {
    var snap := sl.s.snap;
    var finalizers := if sl.s.AddingFinalizer? then snap.finalizers + {CLEANUP} else snap.finalizers - {CLEANUP};
    var sh := UpdateCapp(sl.sh, env.admission, CONTROLLER, snap.(finalizers := finalizers)).1;
    CommitShard(sl, sh);
    QuietFinalizers(k, sl.sh, sh, env, snap, finalizers);
  }

  lemma SyncStepGood(k: Key, sl: Slice, env: Env) returns (next: Slice)
    requires Good(k, sl, env) && (sl.s == SyncingIdle ==> sl.sWaiting)
    ensures SyncStep(k, sl, env) == Some(next) && Good(k, next, env) && next.p == sl.p
  {
    SyncStepHappens(k, sl, env);
    next := SyncStep(k, sl, env).value;
    if sl.s.AddingFinalizer? || sl.s.RemovingFinalizer? {
      QuietSyncCapp(k, sl, env, next);
    } else {
      SyncKeepsCapp(k, sl, env, next);
      SyncLeavesPlacing(k, sl, env, next);
    }
    VersionStep(k, sl, Sync(env), next);
    InFlightStays(sl.sh, next.sh, sl.p, env);
    GoodGoesOn(k, sl, Sync(env), env, next);
  }

  lemma SyncStepHappens(k: Key, sl: Slice, env: Env)
    requires sl.s == SyncingIdle ==> sl.sWaiting
    ensures SyncStep(k, sl, env).Some?
  {
  }

  /* ----- Moves keep the invariants ----- */

  lemma AgentGood(k: Key, sl: Slice, env: Env)
    requires Good(k, sl, env)
    ensures Good(k, sl.(sh := AgentTurn(sl.sh)), env)
  {
    GoodIsCalm(k, sl, env);
    if c :| c in sl.sh.works && sl.sh.works[c].deleting {
      LastWorkGoes(sl.sh, c);
      AgentStepGood(k, sl, c, {}, sl.sh.works[c].status, env);
    } else {
      assert AgentTurn(sl.sh).works == sl.sh.works;
    }
  }

  lemma AgentStepGood(k: Key, sl: Slice, c: string, finalizers: set<string>, status: string, env: Env)
    requires Good(k, sl, env)
    ensures Good(k, sl.(sh := AgentWrite(sl.sh, c, finalizers, status)), env)
  {
    var act := Agent(c, finalizers, status);
    var next := sl.(sh := AgentWrite(sl.sh, c, finalizers, status));
    assert Step(k, sl, act) == Some(next);
    VersionStep(k, sl, act, next);
    InFlightStays(sl.sh, next.sh, sl.p, env);
    GoodGoesOn(k, sl, act, env, next);
  }

  lemma MovedGood(k: Key, sl: Slice, env: Env, actor: Actor)
    requires Good(k, sl, env)
    ensures var next := Moved(k, sl, env, actor);
      && Good(k, next, env)
      && (actor != Placer ==> next.p == sl.p)
      && (actor != Syncer ==> next.s == sl.s)
  {
    match actor
    case Placer =>
      if sl.p != PlacingIdle || sl.pWaiting {
        var next := PlaceStepGood(k, sl, env);
      }
    case Syncer =>
      if sl.s != SyncingIdle || sl.sWaiting {
        var next := SyncStepGood(k, sl, env);
      }
    case WorkAgent => AgentGood(k, sl, env);
  }

  /** Moves are runs of the step relation. */
  lemma MovedIsRun(k: Key, sl: Slice, env: Env, actor: Actor) returns (acts: seq<Act>)
    requires Good(k, sl, env)
    ensures Iterate(k, sl, acts) == Some(Moved(k, sl, env, actor))
  {
    match actor
    case Placer =>
      if sl.p == PlacingIdle && !sl.pWaiting {
        acts := [];
      } else {
        var next := PlaceStepGood(k, sl, env);
        acts := [Place(env)];
        assert acts[1..] == [];
      }
    case Syncer =>
      if sl.s == SyncingIdle && !sl.sWaiting {
        acts := [];
      } else {
        var next := SyncStepGood(k, sl, env);
        acts := [Sync(env)];
        assert acts[1..] == [];
      }
    case WorkAgent =>
      GoodIsCalm(k, sl, env);
      acts := AgentTurnIsRun(k, sl, env);
  }

  lemma {:induction false} IterateMore(k: Key, sl: Slice, a: seq<Act>, middle: Slice, b: seq<Act>, end: Slice)
    requires Iterate(k, sl, a) == Some(middle) && Iterate(k, middle, b) == Some(end)
    ensures Iterate(k, sl, a + b) == Some(end)
    decreases |a|
  {
    if a == [] {
      assert a + b == b;
    } else {
      assert (a + b)[0] == a[0] && (a + b)[1..] == a[1..] + b;
      IterateMore(k, Step(k, sl, a[0]).value, a[1..], middle, b, end);
    }
  }

  lemma {:induction false} PlayIsRun(k: Key, sl: Slice, env: Env, actors: seq<Actor>) returns (acts: seq<Act>)
    requires Good(k, sl, env)
    ensures Iterate(k, sl, acts) == Some(Play(k, sl, env, actors))
    decreases |actors|
  {
    if actors == [] {
      acts := [];
    } else {
      var next := Moved(k, sl, env, actors[0]);
      var first := MovedIsRun(k, sl, env, actors[0]);
      MovedGood(k, sl, env, actors[0]);
      var rest := PlayIsRun(k, next, env, actors[1..]);
      IterateMore(k, sl, first, next, rest, Play(k, next, env, actors[1..]));
      acts := first + rest;
    }
  }

  /* ----- Once it was idle, a sync works on the Capp as it is ----- */

  /** All but version and finalizers is as it was read. */
  predicate SameCapp(snap: Capp, c: Capp) {
    c.(version := snap.version, finalizers := snap.finalizers) == snap
  }

  /** What a sync of a live Capp has read still holds, unless it will write nothing. */
  predicate Fresh(sh: Shard, s: Syncing) {
    s.AddingFinalizer? || s.Assembling? || s.LookingUpWork? || s.CreatingWork? || s.UpdatingWork? ==>
      sh.capp.Some? && Placed(s.snap) ==> SameCapp(s.snap, sh.capp.value)
  }

  lemma FreshRead(k: Key, sl: Slice, env: Env, next: Slice)
    requires SyncStep(k, sl, env) == Some(next) && Fresh(sl.sh, sl.s)
    requires !sl.s.AddingFinalizer? && !sl.s.RemovingFinalizer?
    ensures Fresh(next.sh, next.s)
  {
  }

  lemma FinalizersOnly(sh: Shard, env: Env, c: Capp, finalizers: set<string>)
    requires sh.capp == Some(c) && Accepts(env, c.spec)
    ensures var b := UpdateCapp(sh, env.admission, CONTROLLER, c.(finalizers := finalizers)).1;
      b.capp.Some? ==> SameCapp(c, b.capp.value)
  {
    AcceptsAdmits(env, c.(finalizers := finalizers));
  }

  lemma FreshFinalizer(k: Key, sl: Slice, env: Env, next: Slice)
    requires Good(k, sl, env) && SyncStep(k, sl, env) == Some(next) && Fresh(sl.sh, sl.s)
    requires sl.s.AddingFinalizer? || sl.s.RemovingFinalizer?
    ensures Fresh(next.sh, next.s)
  {
    var snap := sl.s.snap;
    var finalizers := if sl.s.AddingFinalizer? then snap.finalizers + {CLEANUP} else snap.finalizers - {CLEANUP};
    var sh := UpdateCapp(sl.sh, env.admission, CONTROLLER, snap.(finalizers := finalizers)).1;
    CommitShard(sl, sh);
    if sl.sh.capp == Some(snap) {
      FinalizersOnly(sl.sh, env, snap, finalizers);
    } else {
      StaleFinalizersFail(sl.sh, env, snap, finalizers);
    }
  }

  /** The placement controller leaves a placed Capp alone. */
  lemma PlacedStays(k: Key, sl: Slice, env: Env, next: Slice)
    requires Good(k, sl, env) && PlaceStep(sl, env) == Some(next) && sl.sh.capp.Some? && Placed(sl.sh.capp.value)
    ensures next.sh == sl.sh
  {
    if sl.p.WritingStatus? {
      PlacedStatusStays(k, sl, env, next);
    } else if sl.p.WritingAnnotation? {
      PlacedAnnotationStays(k, sl, env, next);
    } else {
      PlaceReadKeeps(sl, env, next);
    }
  }

  lemma PlaceReadKeeps(sl: Slice, env: Env, next: Slice)
    requires PlaceStep(sl, env) == Some(next) && !sl.p.WritingStatus? && !sl.p.WritingAnnotation?
    ensures next.sh == sl.sh
  {
  }

  lemma PlacedStatusStays(k: Key, sl: Slice, env: Env, next: Slice)
    requires Good(k, sl, env) && PlaceStep(sl, env) == Some(next) && sl.sh.capp.Some? && Placed(sl.sh.capp.value)
    requires sl.p.WritingStatus?
    ensures next.sh == sl.sh
  {
    var snap, cluster := sl.p.snap, sl.p.cluster;
    CommitShard(sl, UpdateStatus(sl.sh, snap.(site := cluster)).1);
    if sl.sh.capp == Some(snap) {
      QuietChoice(k, snap, cluster, env);
      StatusWrite(sl.sh, cluster);
      assert snap.(site := cluster) == snap;
    } else {
      StaleStatusFails(sl.sh, snap, cluster);
    }
  }

  lemma PlacedAnnotationStays(k: Key, sl: Slice, env: Env, next: Slice)
    requires Good(k, sl, env) && PlaceStep(sl, env) == Some(next) && sl.sh.capp.Some? && Placed(sl.sh.capp.value)
    requires sl.p.WritingAnnotation?
    ensures next.sh == sl.sh
  {
    var snap, cluster := sl.p.snap, sl.p.cluster;
    CommitShard(sl, UpdateCapp(sl.sh, env.admission, CONTROLLER, Annotate(snap, cluster)).1);
    if sl.sh.capp == Some(snap) {
      QuietChoice(k, snap, cluster, env);
      AnnotationWrite(k, sl.sh, env, snap, cluster);
      assert Annotate(snap, cluster) == snap;
    } else {
      StaleAnnotationFails(sl.sh, env, snap, cluster);
    }
  }

  lemma PlaceKeepsFresh(k: Key, sl: Slice, env: Env, next: Slice)
    requires Good(k, sl, env) && PlaceStep(sl, env) == Some(next) && Fresh(sl.sh, sl.s) && next.s == sl.s
    requires Good(k, next, env)
    ensures Fresh(next.sh, next.s)
  {
    if sl.sh.capp.Some? && Placed(sl.sh.capp.value) {
      PlacedStays(k, sl, env, next);
    } else {
      PlaceMakesNoCapp(sl, env, next);
    }
  }

  lemma PlaceMakesNoCapp(sl: Slice, env: Env, next: Slice)
    requires PlaceStep(sl, env) == Some(next)
    ensures sl.sh.capp.None? ==> next.sh.capp.None?
  {
  }

  lemma MovedFresh(k: Key, sl: Slice, env: Env, actor: Actor)
    requires Good(k, sl, env) && Fresh(sl.sh, sl.s)
    ensures var next := Moved(k, sl, env, actor); Fresh(next.sh, next.s)
  {
    match actor
    case Placer =>
      if sl.p != PlacingIdle || sl.pWaiting {
        var next := PlaceStepGood(k, sl, env);
        PlaceKeepsFresh(k, sl, env, next);
      }
    case Syncer =>
      if sl.s != SyncingIdle || sl.sWaiting {
        var next := SyncStepGood(k, sl, env);
        if sl.s.AddingFinalizer? || sl.s.RemovingFinalizer? {
          FreshFinalizer(k, sl, env, next);
        } else {
          FreshRead(k, sl, env, next);
        }
      }
    case WorkAgent =>
  }

  /** A sync in flight, whatever it has read, is over after so many moves of its controller. */
  lemma {:induction false} BecomesFresh(k: Key, sl: Slice, env: Env, actors: seq<Actor>)
    requires Good(k, sl, env)
    requires Fresh(sl.sh, sl.s) || Count(actors, Syncer) >= SyncingLeft(sl.s)
    ensures var end := Play(k, sl, env, actors); Good(k, end, env) && Fresh(end.sh, end.s)
    decreases |actors|
  {
    if actors != [] {
      MovedGood(k, sl, env, actors[0]);
      if Fresh(sl.sh, sl.s) {
        MovedFresh(k, sl, env, actors[0]);
      } else if actors[0] == Syncer {
        var next := SyncStepGood(k, sl, env);
        SyncGoesOn(k, sl, env, next);
      }
      BecomesFresh(k, Moved(k, sl, env, actors[0]), env, actors[1..]);
    }
  }

  /* ----- Every move brings the Capp closer to rest or leaves the store alone ----- */

  predicate Closer(k: Key, a: Shard, b: Shard, env: Env) {
    b == a || Rank(k, b, env) < Rank(k, a, env)
  }

  lemma UnplacedHasNoWorks(k: Key, sh: Shard, env: Env)
    requires Calm(k, sh, env) && (sh.capp.Some? ==> !Placed(sh.capp.value))
    ensures sh.works == map[]
  {
    assert forall c :: c !in sh.works;
  }

  lemma StatusCloser(k: Key, sh: Shard, b: Shard, env: Env, c: Capp, cluster: string)
    requires sh.capp == Some(c) && !Placed(c) && sh.works == map[] && Chosen(c, cluster, env)
    requires Becomes(sh, b, c.(site := cluster))
    ensures Closer(k, sh, b, env)
  {
    if c.site == cluster {
      assert c.(site := cluster) == c;
    }
  }

  lemma AnnotationCloser(k: Key, sh: Shard, b: Shard, env: Env, c: Capp, cluster: string)
    requires sh.capp == Some(c) && !Placed(c) && sh.works == map[] && cluster != ""
    requires Becomes(sh, b, Annotate(c, cluster))
    ensures Closer(k, sh, b, env)
  {
    assert Placement(b.capp.value) == cluster;
  }

  lemma StatusMoveCloser(k: Key, sl: Slice, env: Env, next: Slice)
    requires Good(k, sl, env) && PlaceStep(sl, env) == Some(next) && sl.p.WritingStatus?
    ensures Closer(k, sl.sh, next.sh, env)
  {
    var snap, cluster := sl.p.snap, sl.p.cluster;
    CommitShard(sl, UpdateStatus(sl.sh, snap.(site := cluster)).1);
    if sl.sh.capp != Some(snap) {
      StaleStatusFails(sl.sh, snap, cluster);
    } else if Placed(snap) {
      PlacedStatusStays(k, sl, env, next);
    } else {
      GoodIsCalm(k, sl, env);
      UnplacedHasNoWorks(k, sl.sh, env);
      StatusWrite(sl.sh, cluster);
      StatusCloser(k, sl.sh, next.sh, env, snap, cluster);
    }
  }

  lemma AnnotationMoveCloser(k: Key, sl: Slice, env: Env, next: Slice)
    requires Good(k, sl, env) && PlaceStep(sl, env) == Some(next) && sl.p.WritingAnnotation?
    ensures Closer(k, sl.sh, next.sh, env)
  {
    var snap, cluster := sl.p.snap, sl.p.cluster;
    CommitShard(sl, UpdateCapp(sl.sh, env.admission, CONTROLLER, Annotate(snap, cluster)).1);
    if sl.sh.capp != Some(snap) {
      StaleAnnotationFails(sl.sh, env, snap, cluster);
    } else if Placed(snap) {
      PlacedAnnotationStays(k, sl, env, next);
    } else {
      GoodIsCalm(k, sl, env);
      UnplacedHasNoWorks(k, sl.sh, env);
      ResolveIffProvenance(cluster, env.config.value, snap.spec.site, env.lookup);
      AnnotationWrite(k, sl.sh, env, snap, cluster);
      AnnotationCloser(k, sl.sh, next.sh, env, snap, cluster);
    }
  }

  lemma PlacerCloser(k: Key, sl: Slice, env: Env, next: Slice)
    requires Good(k, sl, env) && PlaceStep(sl, env) == Some(next)
    ensures Closer(k, sl.sh, next.sh, env)
  {
    if sl.p.WritingStatus? {
      StatusMoveCloser(k, sl, env, next);
    } else if sl.p.WritingAnnotation? {
      AnnotationMoveCloser(k, sl, env, next);
    } else {
      PlaceReadKeeps(sl, env, next);
    }
  }

  lemma FinalizerAdded(sh: Shard, env: Env, c: Capp)
    requires sh.capp == Some(c) && Accepts(env, c.spec) && !c.deleting && c.version <= sh.clock
    ensures var b := UpdateCapp(sh, env.admission, CONTROLLER, c.(finalizers := c.finalizers + {CLEANUP})).1;
      && b.capp.Some? && b.works == sh.works && b.clock >= sh.clock && b.capp.value.version <= b.clock
      && b.capp.value.(version := c.version) == c.(finalizers := c.finalizers + {CLEANUP})
      && (CLEANUP in c.finalizers ==> b == sh)
  {
    AcceptsAdmits(env, c.(finalizers := c.finalizers + {CLEANUP}));
    if CLEANUP in c.finalizers {
      assert c.finalizers + {CLEANUP} == c.finalizers;
    }
  }

  lemma AddingCloser(k: Key, sl: Slice, env: Env, next: Slice)
    requires Good(k, sl, env) && SyncStep(k, sl, env) == Some(next) && sl.s.AddingFinalizer?
    ensures Closer(k, sl.sh, next.sh, env)
  {
    var snap := sl.s.snap;
    var sh := UpdateCapp(sl.sh, env.admission, CONTROLLER, snap.(finalizers := snap.finalizers + {CLEANUP})).1;
    CommitShard(sl, sh);
    if sl.sh.capp != Some(snap) {
      StaleFinalizersFail(sl.sh, env, snap, snap.finalizers + {CLEANUP});
    } else {
      GoodIsCalm(k, sl, env);
      FinalizerAdded(sl.sh, env, snap);
      if CLEANUP !in snap.finalizers {
        FinalizedCalm(k, sl.sh, sh, env);
      }
    }
  }

  lemma RemovingCloser(k: Key, sl: Slice, env: Env, next: Slice)
    requires Good(k, sl, env) && SyncStep(k, sl, env) == Some(next) && sl.s.RemovingFinalizer?
    ensures Closer(k, sl.sh, next.sh, env)
  {
    var snap := sl.s.snap;
    var sh := UpdateCapp(sl.sh, env.admission, CONTROLLER, snap.(finalizers := snap.finalizers - {CLEANUP})).1;
    CommitShard(sl, sh);
    if sl.sh.capp != Some(snap) {
      StaleFinalizersFail(sl.sh, env, snap, snap.finalizers - {CLEANUP});
    } else {
      GoodIsCalm(k, sl, env);
      ReleaseCloser(k, sl.sh, env);
    }
  }

  lemma CreateIsPut(k: Key, sl: Slice, env: Env, next: Slice)
    requires WorksAtHome(sl.sh) && SyncStep(k, sl, env) == Some(next) && sl.s.CreatingWork?
    ensures next.sh == sl.sh
            || (Placed(sl.s.snap) && next.sh == PutManifests(sl.sh, Placement(sl.s.snap), sl.s.manifests))
  {
  }

  lemma UpdateIsPut(k: Key, sl: Slice, env: Env, next: Slice)
    requires VersionInv(sl) && WorksAtHome(sl.sh) && SyncStep(k, sl, env) == Some(next) && sl.s.UpdatingWork?
    ensures next.sh == sl.sh
            || (Placed(sl.s.snap) && next.sh == PutManifests(sl.sh, Placement(sl.s.snap), sl.s.manifests))
  {
  }

  /** A sync writes the manifests it has assembled, at the cluster it has read, or nothing. */
  lemma PutIsPut(k: Key, sl: Slice, env: Env, next: Slice)
    requires Good(k, sl, env) && SyncStep(k, sl, env) == Some(next) && (sl.s.CreatingWork? || sl.s.UpdatingWork?)
    ensures next.sh == sl.sh
            || (Placed(sl.s.snap) && next.sh == PutManifests(sl.sh, Placement(sl.s.snap), sl.s.manifests))
  {
    if sl.s.CreatingWork? {
      CreateIsPut(k, sl, env, next);
    } else {
      UpdateIsPut(k, sl, env, next);
    }
  }

  lemma PuttingCloser(k: Key, sl: Slice, env: Env, next: Slice)
    requires Good(k, sl, env) && Fresh(sl.sh, sl.s)
    requires SyncStep(k, sl, env) == Some(next) && (sl.s.CreatingWork? || sl.s.UpdatingWork?)
    ensures Closer(k, sl.sh, next.sh, env)
  {
    PutIsPut(k, sl, env, next);
    if next.sh != sl.sh {
      GoodIsCalm(k, sl, env);
      SnapshotInsensitive(k, sl.s.snap, sl.sh.capp.value, env.resources);
      WorkCloser(k, sl.sh, env, sl.s.manifests);
    }
  }

  lemma DeletingCloser(k: Key, sl: Slice, env: Env, next: Slice)
    requires Good(k, sl, env) && SyncStep(k, sl, env) == Some(next) && sl.s.DeletingWork?
    ensures Closer(k, sl.sh, next.sh, env)
  {
    if sl.s.snap.site in sl.sh.works {
      GoodIsCalm(k, sl, env);
      DeletionCloser(k, sl.sh, env);
    }
  }

  lemma SyncReadKeeps(k: Key, sl: Slice, env: Env, next: Slice)
    requires SyncStep(k, sl, env) == Some(next) && !sl.s.AddingFinalizer? && !sl.s.RemovingFinalizer?
    requires !sl.s.CreatingWork? && !sl.s.UpdatingWork? && !sl.s.DeletingWork?
    ensures next.sh == sl.sh
  {
  }

  lemma SyncerCloser(k: Key, sl: Slice, env: Env, next: Slice)
    requires Good(k, sl, env) && Fresh(sl.sh, sl.s) && SyncStep(k, sl, env) == Some(next)
    ensures Closer(k, sl.sh, next.sh, env)
  {
    if sl.s.AddingFinalizer? {
      AddingCloser(k, sl, env, next);
    } else if sl.s.RemovingFinalizer? {
      RemovingCloser(k, sl, env, next);
    } else if sl.s.CreatingWork? || sl.s.UpdatingWork? {
      PuttingCloser(k, sl, env, next);
    } else if sl.s.DeletingWork? {
      DeletingCloser(k, sl, env, next);
    } else {
      SyncReadKeeps(k, sl, env, next);
    }
  }

  /** A single move of any actor lowers the rank or leaves the store alone, not touching even a version. */
  lemma MovedCloser(k: Key, sl: Slice, env: Env, actor: Actor)
    requires Good(k, sl, env) && Fresh(sl.sh, sl.s)
    ensures Closer(k, sl.sh, Moved(k, sl, env, actor).sh, env)
  {
    match actor
    case Placer =>
      if sl.p != PlacingIdle || sl.pWaiting {
        var next := PlaceStepGood(k, sl, env);
        PlacerCloser(k, sl, env, next);
      }
    case Syncer =>
      if sl.s != SyncingIdle || sl.sWaiting {
        var next := SyncStepGood(k, sl, env);
        SyncerCloser(k, sl, env, next);
      }
    case WorkAgent =>
      GoodIsCalm(k, sl, env);
      AgentTurnCloser(k, sl.sh, env);
  }

  /* ----- How many moves the one who can move the Capp needs ----- */

  /** As long as nobody changes the store: the moves until the placement reconcile in flight changes it, or, if that
      one changes nothing, until the next one does. */
  function PlacesWithin(sl: Slice, env: Env): (n: nat)
    ensures 1 <= n <= 11
  {
    if sl.p == PlacingIdle then 6
    else if FinishPlace(sl, env).sh != sl.sh then PlacingLeft(sl.p) else 6 + PlacingLeft(sl.p)
  }

  function SyncsWithin(k: Key, sl: Slice, env: Env): (n: nat)
    ensures 1 <= n <= 13
  {
    if sl.s == SyncingIdle then 7
    else if FinishSync(k, sl, env).sh != sl.sh then SyncingLeft(sl.s) else 7 + SyncingLeft(sl.s)
  }

  function Within(k: Key, sl: Slice, env: Env, actor: Actor): (n: nat)
    ensures 1 <= n <= 13
  {
    match actor
    case Placer => PlacesWithin(sl, env)
    case Syncer => SyncsWithin(k, sl, env)
    case WorkAgent => 1
  }

  lemma PlacerCounts(k: Key, sl: Slice, env: Env)
    requires Good(k, sl, env) && sl.sh.capp.Some? && !Placed(sl.sh.capp.value)
    ensures var next := Moved(k, sl, env, Placer);
      next.sh != sl.sh || PlacesWithin(next, env) < PlacesWithin(sl, env)
  {
    var next := PlaceStepGood(k, sl, env);
    if sl.p == PlacingIdle {
      GoodIsCalm(k, sl, env);
      PlacerTurn(k, sl.sh, env);
      FinishPlaceAnywhere(next, Slice(sl.sh, false, ReadingConfig, false, SyncingIdle), env);
    } else {
      PlaceGoesOn(sl, env, next);
      assert FinishPlace(sl, env) == FinishPlace(next, env);
    }
  }

  lemma SyncerCounts(k: Key, sl: Slice, env: Env)
    requires Good(k, sl, env) && Rank(k, sl.sh, env) > 0 && Mover(k, sl.sh, env.resources) == Syncer
    ensures var next := Moved(k, sl, env, Syncer);
      next.sh != sl.sh || SyncsWithin(k, next, env) < SyncsWithin(k, sl, env)
  {
    MoverIsPending(k, sl, env);
    var next := SyncStepGood(k, sl, env);
    if sl.s == SyncingIdle {
      GoodIsCalm(k, sl, env);
      SomeoneMoves(k, sl.sh, env);
      FinishSyncAnywhere(k, next, Slice(sl.sh, false, PlacingIdle, false, FetchingCapp), env);
    } else {
      SyncGoesOn(k, sl, env, next);
      assert FinishSync(k, sl, env) == FinishSync(k, next, env);
    }
  }

  /** A move of the one who can move the Capp changes the store or brings the change one move closer. */
  lemma MoverCounts(k: Key, sl: Slice, env: Env)
    requires Good(k, sl, env) && Rank(k, sl.sh, env) > 0
    ensures var a := Mover(k, sl.sh, env.resources);
      var next := Moved(k, sl, env, a);
      next.sh != sl.sh || Within(k, next, env, a) < Within(k, sl, env, a)
  {
    match Mover(k, sl.sh, env.resources)
    case Placer => PlacerCounts(k, sl, env);
    case Syncer => SyncerCounts(k, sl, env);
    case WorkAgent =>
      GoodIsCalm(k, sl, env);
      SomeoneMoves(k, sl.sh, env);
  }

  /** The moves of the others do not matter for that, unless they change the store. */
  lemma OthersWait(k: Key, sl: Slice, env: Env, a: Actor, actor: Actor)
    requires Good(k, sl, env) && actor != a && Moved(k, sl, env, actor).sh == sl.sh
    ensures Within(k, Moved(k, sl, env, actor), env, a) == Within(k, sl, env, a)
  {
    var next := Moved(k, sl, env, actor);
    MovedGood(k, sl, env, actor);
    match a
    case Placer =>
      if sl.p != PlacingIdle { FinishPlaceAnywhere(sl, next, env); }
    case Syncer =>
      if sl.s != SyncingIdle { FinishSyncAnywhere(k, sl, next, env); }
    case WorkAgent =>
  }

  /* ----- Rounds ----- */

  lemma {:induction false} PlayNeverRaises(k: Key, sl: Slice, env: Env, actors: seq<Actor>)
    requires Good(k, sl, env) && Fresh(sl.sh, sl.s)
    ensures Closer(k, sl.sh, Play(k, sl, env, actors).sh, env)
    decreases |actors|
  {
    if actors != [] {
      MovedGood(k, sl, env, actors[0]);
      MovedFresh(k, sl, env, actors[0]);
      MovedCloser(k, sl, env, actors[0]);
      PlayNeverRaises(k, Moved(k, sl, env, actors[0]), env, actors[1..]);
    }
  }

  lemma {:induction false} RoundDrops(k: Key, sl: Slice, env: Env, actors: seq<Actor>)
    requires Good(k, sl, env) && Fresh(sl.sh, sl.s) && Rank(k, sl.sh, env) > 0
    requires var a := Mover(k, sl.sh, env.resources); Count(actors, a) >= Within(k, sl, env, a)
    ensures Rank(k, Play(k, sl, env, actors).sh, env) < Rank(k, sl.sh, env)
    decreases |actors|
  {
    var a := Mover(k, sl.sh, env.resources);
    var next := Moved(k, sl, env, actors[0]);
    MovedGood(k, sl, env, actors[0]);
    MovedFresh(k, sl, env, actors[0]);
    MovedCloser(k, sl, env, actors[0]);
    if next.sh != sl.sh {
      PlayNeverRaises(k, next, env, actors[1..]);
    } else {
      if actors[0] == a {
        MoverCounts(k, sl, env);
      } else {
        OthersWait(k, sl, env, a, actors[0]);
      }
      RoundDrops(k, next, env, actors[1..]);
    }
  }

  /** At rest: the Capp is gone, released, or placed with a ManifestWork that carries its content and is there to stay;
      and whatever moves are made, the store stays as it is. */
  ghost predicate AtRest(k: Key, sl: Slice, env: Env) {
    && (sl.sh.capp.Some? ==> Placed(sl.sh.capp.value) && Deployed(k, sl.sh, env.resources))
    && (forall actors: seq<Actor> :: Play(k, sl, env, actors).sh == sl.sh)
  }

  lemma RankZeroIsRest(k: Key, sl: Slice, env: Env)
    requires Good(k, sl, env) && Fresh(sl.sh, sl.s) && Rank(k, sl.sh, env) == 0
    ensures AtRest(k, sl, env)
  {
    GoodIsCalm(k, sl, env);
    if sl.sh.capp.Some? {
      RestIsSettled(k, sl.sh, env);
    }
    forall actors: seq<Actor>
      ensures Play(k, sl, env, actors).sh == sl.sh
    {
      PlayNeverRaises(k, sl, env, actors);
    }
  }

  /** In each round every actor moves at least 13 times, in any order. */
  predicate Fair(rounds: seq<seq<Actor>>) {
    forall r, a: Actor :: r in rounds ==> Count(r, a) >= 13
  }

  lemma {:induction false} FreshConverges(k: Key, sl: Slice, env: Env, rounds: seq<seq<Actor>>)
    requires Good(k, sl, env) && Fresh(sl.sh, sl.s) && Fair(rounds) && |rounds| >= Rank(k, sl.sh, env)
    ensures AtRest(k, Rounds(k, sl, env, rounds), env)
    decreases |rounds|
  {
    if rounds == [] {
      RankZeroIsRest(k, sl, env);
    } else {
      assert rounds[0] in rounds;
      BecomesFresh(k, sl, env, rounds[0]);
      PlayNeverRaises(k, sl, env, rounds[0]);
      if Rank(k, sl.sh, env) > 0 {
        RoundDrops(k, sl, env, rounds[0]);
      }
      FreshConverges(k, Play(k, sl, env, rounds[0]), env, rounds[1..]);
    }
  }

  /** In any fair interleaving of single calls: one round ends the sync in flight, and at most five more bring the Capp
      to rest. */
  lemma Converges(k: Key, sl: Slice, env: Env, rounds: seq<seq<Actor>>)
    requires Good(k, sl, env) && Fair(rounds) && |rounds| >= 6
    ensures AtRest(k, Rounds(k, sl, env, rounds), env)
  {
    assert rounds[0] in rounds;
    BecomesFresh(k, sl, env, rounds[0]);
    RankBound(k, Play(k, sl, env, rounds[0]).sh, env);
    FreshConverges(k, Play(k, sl, env, rounds[0]), env, rounds[1..]);
  }

  /** From any reachable state of the whole system. */
  lemma SystemConverges(keys: set<Key>, states: seq<System>, actions: seq<Action>, n: nat, k: Key, env: Env,
                        rounds: seq<seq<Actor>>)
    requires IsRun(keys, states, actions) && NoCollision(keys) && n < |states| && k in keys
    requires KeepsRun(states, actions) && SteadyRun(actions, env.resources)
    requires AllQuiet(k, SliceOf(states[n], k).sh, SliceOf(states[n], k).p, env)
    requires Fair(rounds) && |rounds| >= 6
    ensures AtRest(k, Rounds(k, SliceOf(states[n], k), env, rounds), env)
  {
    InvariantsHold(keys, states, actions, env.resources, n, k);
    Converges(k, SliceOf(states[n], k), env, rounds);
  }
}
