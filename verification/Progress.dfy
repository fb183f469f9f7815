/** Once users stop writing, every whole reconcile brings a Capp closer to rest or leaves it alone. */
module Progress {
  import opened Objects
  import opened Usernames
  import opened Decisions
  import opened Assembly
  import opened Admission
  import opened Shards
  import opened Protocol
  import opened Versions
  import opened Safety
  import opened Queues
  import opened Turns

  datatype Actor = Placer | Syncer | WorkAgent

  /** The agents let go of the ManifestWorks being deleted. */
  function AgentTurn(sh: Shard): Shard {
    var rest := map c | c in sh.works && !sh.works[c].deleting :: sh.works[c];
    if rest == sh.works then sh else sh.(works := rest, clock := sh.clock + 1)
  }

  function Turn(k: Key, sh: Shard, env: Env, actor: Actor): Shard {
    match actor
    case Placer => PlaceTurn(sh, env)
    case Syncer => SyncTurn(k, sh, env)
    case WorkAgent => AgentTurn(sh)
  }

  /* ----- The rank ----- */

  /** How far a Capp is from rest. Live: no finalizer, unsynced, synced. Deleted: its ManifestWork lives, is being
      deleted, is gone, and the finalizer is removed. */
  function Stage(k: Key, sh: Shard, res: Resources): nat
    requires sh.capp.Some?
  {
    var c := sh.capp.value;
    if !c.deleting then if CLEANUP !in c.finalizers then 2 else if Settled(k, sh, res) then 0 else 1
    else if CLEANUP !in c.finalizers then 0
    else if c.site in sh.works then if sh.works[c.site].deleting then 2 else 3
    else 1
  }

  /** The cluster is the one that is chosen for the Capp now. */
  predicate Chosen(c: Capp, cluster: string, env: Env) {
    && env.config.Some? && (c.spec.site != "" || env.config.value.placements != [])
    && Resolve(env.config.value, c.spec.site, env.lookup) == Cluster(cluster)
  }

  /** The writes that placing the Capp still takes. */
  function ToPlace(c: Capp, env: Env): nat {
    if Placed(c) then 0 else if Chosen(c, c.site, env) then 1 else 2
  }

  function Rank(k: Key, sh: Shard, env: Env): nat {
    if sh.capp.None? then 0 else Stage(k, sh, env.resources) + ToPlace(sh.capp.value, env)
  }

  /* ----- A quiet world ----- */

  /** Decisions are stable, the manifests can be assembled, and admission accepts the Capp as it stands. */
  predicate Quiet(k: Key, c: Capp, env: Env) {
    && Accepts(env, c.spec)
    && (c.spec.site != "" || env.config.value.placements != [])
    && (match Resolve(env.config.value, c.spec.site, env.lookup)
        case Cluster(cluster) => cluster != "" && (Placed(c) ==> Placement(c) == cluster && c.site == cluster)
        case _ => false)
    && Assemble(k, c, env.resources).Ok?
  }

  predicate Calm(k: Key, sh: Shard, env: Env) {
    && Clocked(sh) && WorksAtHome(sh)
    && (sh.capp.Some? ==> Quiet(k, sh.capp.value, env))
    && (forall c :: c in sh.works ==> c == sh.capp.value.site)
  }

  /** The invariant of the interleaved system provides all of it but the quiet. */
  lemma ReachableIsCalm(k: Key, sl: Slice, env: Env)
    requires SafeInv(sl) && (sl.sh.capp.Some? ==> Quiet(k, sl.sh.capp.value, env))
    ensures Calm(k, sl.sh, env)
  {
    SafeInvMeans(sl);
  }

  /* ----- Each turn brings the Capp closer to rest or changes nothing at all ----- */

  predicate CloserOrSame(k: Key, a: Shard, b: Shard, env: Env) {
    Calm(k, b, env) && (b == a || Rank(k, b, env) < Rank(k, a, env))
  }

  lemma PlacerTurn(k: Key, sh: Shard, env: Env)
    requires Calm(k, sh, env)
    ensures CloserOrSame(k, sh, PlaceTurn(sh, env), env)
    ensures sh.capp.Some? && !Placed(sh.capp.value) ==> PlaceTurn(sh, env) != sh
  {
    if sh.capp.None? {
      PlaceTurnElse(sh, env);
    } else {
      var c := sh.capp.value;
      var cluster := Resolve(env.config.value, c.spec.site, env.lookup).name;
      PlaceTurnIs(sh, env, cluster);
      TwoWrites(k, sh, env, cluster);
      PlacedCloser(k, sh, PlaceTurn(sh, env), env, cluster);
    }
  }

  /** `b` is `a` with another Capp, under a new version unless it is the same Capp. */
  predicate Becomes(a: Shard, b: Shard, c: Capp)
    requires a.capp.Some?
  {
    && b.capp.Some? && b.works == a.works && b.clock >= a.clock && b.capp.value.version <= b.clock
    && b.capp.value == c.(version := b.capp.value.version)
    && (c == a.capp.value ==> b == a)
  }

  lemma StatusWrite(sh: Shard, cluster: string)
    requires Clocked(sh) && sh.capp.Some?
    ensures var (reply, b) := UpdateStatus(sh, sh.capp.value.(site := cluster));
      && Becomes(sh, b, sh.capp.value.(site := cluster)) && reply == Done(b.capp.value)
  {
  }

  lemma AnnotationWrite(k: Key, sh: Shard, env: Env, c: Capp, cluster: string)
    requires Quiet(k, c, env) && sh.capp.Some? && sh.capp.value.spec == c.spec && sh.capp.value.version <= sh.clock
    requires sh.capp.value.deleting ==> sh.capp.value.finalizers != {}
    ensures Becomes(sh, UpdateCapp(sh, env.admission, CONTROLLER, Annotate(sh.capp.value, cluster)).1,
                    Annotate(sh.capp.value, cluster))
  {
    var cur := sh.capp.value;
    AcceptsAdmits(env, Annotate(cur, cluster));
  }

  lemma TwoWrites(k: Key, sh: Shard, env: Env, cluster: string)
    requires Calm(k, sh, env) && sh.capp.Some?
    ensures var (reply, sh1) := UpdateStatus(sh, sh.capp.value.(site := cluster));
      && reply.Done?
      && Becomes(sh, UpdateCapp(sh1, env.admission, CONTROLLER, Annotate(reply.value, cluster)).1,
                 Annotate(sh.capp.value.(site := cluster), cluster))
  {
    StatusWrite(sh, cluster);
    var sh1 := UpdateStatus(sh, sh.capp.value.(site := cluster)).1;
    AnnotationWrite(k, sh1, env, sh.capp.value, cluster);
  }

  lemma PlacedCloser(k: Key, sh: Shard, b: Shard, env: Env, cluster: string)
    requires Calm(k, sh, env) && sh.capp.Some?
    requires Resolve(env.config.value, sh.capp.value.spec.site, env.lookup) == Cluster(cluster)
    requires Becomes(sh, b, Annotate(sh.capp.value.(site := cluster), cluster))
    ensures CloserOrSame(k, sh, b, env)
    ensures !Placed(sh.capp.value) ==> b != sh
  {
    var c := sh.capp.value;
    if Placed(c) {
      assert Annotate(c.(site := cluster), cluster) == c;
    } else {
      assert Placement(b.capp.value) == cluster;
      assert sh.works == map[] by {
        assert forall d :: d !in sh.works;
      }
    }
  }

  lemma SyncerTurn(k: Key, sh: Shard, env: Env)
    requires Calm(k, sh, env)
    ensures CloserOrSame(k, sh, SyncTurn(k, sh, env), env)
    ensures sh.capp.Some? && Placed(sh.capp.value) && Stage(k, sh, env.resources) in {1, 3} ==>
      SyncTurn(k, sh, env) != sh
    ensures sh.capp.Some? && !sh.capp.value.deleting && Stage(k, sh, env.resources) == 2 ==> SyncTurn(k, sh, env) != sh
  {
    if sh.capp.None? {
      SyncTurnNone(k, sh, env);
    } else if sh.capp.value.deleting {
      SyncerDeletes(k, sh, env);
    } else if CLEANUP in sh.capp.value.finalizers {
      SyncerUpdates(k, sh, env);
    } else {
      SyncerStarts(k, sh, env);
    }
  }

  lemma SyncerDeletes(k: Key, sh: Shard, env: Env)
    requires Calm(k, sh, env) && sh.capp.Some? && sh.capp.value.deleting
    ensures CloserOrSame(k, sh, SyncTurn(k, sh, env), env)
    ensures Stage(k, sh, env.resources) in {1, 3} ==> SyncTurn(k, sh, env) != sh
  {
    var c := sh.capp.value;
    SyncTurnDeleting(k, sh, env);
    if CLEANUP in c.finalizers && c.site in sh.works {
      DeletionCloser(k, sh, env);
    } else if CLEANUP in c.finalizers {
      ReleaseCloser(k, sh, env);
    }
  }

  lemma DeletionCloser(k: Key, sh: Shard, env: Env)
    requires Calm(k, sh, env) && sh.capp.Some? && sh.capp.value.deleting
    requires CLEANUP in sh.capp.value.finalizers && sh.capp.value.site in sh.works
    ensures CloserOrSame(k, sh, DeleteWork(sh, sh.capp.value.site).1, env)
    ensures Stage(k, sh, env.resources) in {1, 3} ==> DeleteWork(sh, sh.capp.value.site).1 != sh
  {
  }

  lemma ReleaseCloser(k: Key, sh: Shard, env: Env)
    requires Calm(k, sh, env) && sh.capp.Some? && sh.capp.value.deleting
    requires CLEANUP in sh.capp.value.finalizers && sh.capp.value.site !in sh.works
    ensures var req := sh.capp.value.(finalizers := sh.capp.value.finalizers - {CLEANUP});
      var b := UpdateCapp(sh, env.admission, CONTROLLER, req).1;
      CloserOrSame(k, sh, b, env) && b != sh
  {
    var c := sh.capp.value;
    var req := c.(finalizers := c.finalizers - {CLEANUP});
    AcceptsAdmits(env, req);
    assert sh.works == map[] by {
      assert forall d :: d in sh.works ==> d == c.site;
    }
  }

  lemma SyncerUpdates(k: Key, sh: Shard, env: Env)
    requires Calm(k, sh, env) && sh.capp.Some? && !sh.capp.value.deleting && CLEANUP in sh.capp.value.finalizers
    ensures CloserOrSame(k, sh, SyncTurn(k, sh, env), env)
    ensures Placed(sh.capp.value) && !Settled(k, sh, env.resources) ==> SyncTurn(k, sh, env) != sh
  {
    var c := sh.capp.value;
    SyncTurnLive(k, sh, env);
    var ms := Assemble(k, c, env.resources).value;
    WorkCloser(k, sh, env, ms);
  }

  lemma PutStaysCalm(k: Key, sh: Shard, env: Env, ms: seq<Manifest>)
    requires Calm(k, sh, env) && sh.capp.Some? && !sh.capp.value.deleting && CLEANUP in sh.capp.value.finalizers
    ensures Calm(k, PutManifests(sh, Placement(sh.capp.value), ms), env)
    ensures PutManifests(sh, Placement(sh.capp.value), ms).capp == sh.capp
  {
  }

  /** A live Capp's ManifestWork then carries the manifests, and one that carried them is left alone. */
  lemma PutSettles(k: Key, sh: Shard, env: Env, ms: seq<Manifest>)
    requires Calm(k, sh, env) && sh.capp.Some? && !sh.capp.value.deleting && CLEANUP in sh.capp.value.finalizers
    requires Assemble(k, sh.capp.value, env.resources) == Ok(ms)
    ensures var b := PutManifests(sh, Placement(sh.capp.value), ms);
      && (Placed(sh.capp.value) ==> b.capp == sh.capp && Settled(k, b, env.resources))
      && (!Placed(sh.capp.value) || Settled(k, sh, env.resources) ==> b == sh)
  {
  }

  lemma WorkCloser(k: Key, sh: Shard, env: Env, ms: seq<Manifest>)
    requires Calm(k, sh, env) && sh.capp.Some? && !sh.capp.value.deleting && CLEANUP in sh.capp.value.finalizers
    requires Assemble(k, sh.capp.value, env.resources) == Ok(ms)
    ensures var b := PutManifests(sh, Placement(sh.capp.value), ms);
      && CloserOrSame(k, sh, b, env)
      && (Placed(sh.capp.value) ==> Settled(k, b, env.resources))
      && (Placed(sh.capp.value) && !Settled(k, sh, env.resources) ==> b != sh)
  {
    PutStaysCalm(k, sh, env, ms);
    PutSettles(k, sh, env, ms);
  }

  lemma SyncerStarts(k: Key, sh: Shard, env: Env)
    requires Calm(k, sh, env) && sh.capp.Some? && !sh.capp.value.deleting && CLEANUP !in sh.capp.value.finalizers
    ensures CloserOrSame(k, sh, SyncTurn(k, sh, env), env) && SyncTurn(k, sh, env) != sh
  {
    var c := sh.capp.value;
    var req := c.(finalizers := c.finalizers + {CLEANUP});
    SyncTurnLive(k, sh, env);
    AcceptsAdmits(env, req);
    var sh1 := UpdateCapp(sh, env.admission, CONTROLLER, req).1;
    FinalizedCalm(k, sh, sh1, env);
    SnapshotInsensitive(k, c, sh1.capp.value, env.resources);
    WorkCloser(k, sh1, env, Assemble(k, c, env.resources).value);
  }

  lemma FinalizedCalm(k: Key, sh: Shard, b: Shard, env: Env)
    requires Calm(k, sh, env) && sh.capp.Some? && !sh.capp.value.deleting && CLEANUP !in sh.capp.value.finalizers
    requires b.capp.Some? && b.works == sh.works && b.clock >= sh.clock && b.capp.value.version <= b.clock
    requires b.capp.value.(version := sh.capp.value.version)
          == sh.capp.value.(finalizers := sh.capp.value.finalizers + {CLEANUP})
    ensures Calm(k, b, env) && Stage(k, b, env.resources) <= 1
    ensures Rank(k, b, env) < Rank(k, sh, env)
  {
  }

  lemma AgentTurnCloser(k: Key, sh: Shard, env: Env)
    requires Calm(k, sh, env)
    ensures CloserOrSame(k, sh, AgentTurn(sh), env)
    ensures sh.capp.Some? && sh.capp.value.deleting && Stage(k, sh, env.resources) == 2 ==> AgentTurn(sh) != sh
  {
    var rest := AgentTurn(sh).works;
    if rest != sh.works {
      var c :| c in sh.works && sh.works[c].deleting;
      assert c == sh.capp.value.site;
    }
  }

  /** A turn of any actor, at any time, either brings the Capp strictly closer to rest or changes nothing, not even
      a version. */
  lemma TurnDropsOrStays(k: Key, sh: Shard, env: Env, actor: Actor)
    requires Calm(k, sh, env)
    ensures CloserOrSame(k, sh, Turn(k, sh, env, actor), env)
  {
    match actor
    case Placer => PlacerTurn(k, sh, env);
    case Syncer => SyncerTurn(k, sh, env);
    case WorkAgent => AgentTurnCloser(k, sh, env);
  }

  /** Who can move a Capp that is not at rest. */
  function Mover(k: Key, sh: Shard, res: Resources): Actor
    requires sh.capp.Some?
  {
    if !Placed(sh.capp.value) then Placer
    else if sh.capp.value.deleting && Stage(k, sh, res) == 2 then WorkAgent
    else Syncer
  }

  /** As long as the Capp is not at rest, some actor's turn moves it. */
  lemma SomeoneMoves(k: Key, sh: Shard, env: Env)
    requires Calm(k, sh, env) && Rank(k, sh, env) > 0
    ensures Turn(k, sh, env, Mover(k, sh, env.resources)) != sh
  {
    match Mover(k, sh, env.resources)
    case Placer => PlacerTurn(k, sh, env);
    case Syncer => SyncerTurn(k, sh, env);
    case WorkAgent => AgentTurnCloser(k, sh, env);
  }

  /** Whoever can move the Capp has been told to: in a reachable state the mover's reconcile is waiting or running, or
      an agent has a ManifestWork to let go of. */
  lemma MoverIsPending(k: Key, sl: Slice, env: Env)
    requires SafeInv(sl) && QueueInv(k, sl, env.resources) && Rank(k, sl.sh, env) > 0
    ensures match Mover(k, sl.sh, env.resources)
      case Placer => sl.pWaiting || sl.p != PlacingIdle
      case Syncer => sl.sWaiting || sl.s != SyncingIdle
      case WorkAgent => exists c :: c in sl.sh.works && sl.sh.works[c].deleting
  {
    if Placed(sl.sh.capp.value) && !sl.sh.capp.value.deleting && CLEANUP !in sl.sh.capp.value.finalizers {
      assert Placement(sl.sh.capp.value) !in sl.sh.works;
    }
  }

  /** The agents' turn is a run of the step relation: each of them clears the finalizers of its ManifestWork. */
  lemma AgentTurnIsRun(k: Key, sl: Slice, env: Env) returns (acts: seq<Act>)
    requires Calm(k, sl.sh, env)
    ensures forall a :: a in acts ==> a.Agent?
    ensures Iterate(k, sl, acts) == Some(sl.(sh := AgentTurn(sl.sh)))
  {
    acts := [];
    if c :| c in sl.sh.works && sl.sh.works[c].deleting {
      acts := [Agent(c, {}, sl.sh.works[c].status)];
      LastWorkGoes(sl.sh, c);
      assert acts[1..] == [];
    } else {
      assert AgentTurn(sl.sh).works == sl.sh.works;
    }
  }

  lemma LastWorkGoes(sh: Shard, c: string)
    requires Clocked(sh) && c in sh.works && sh.works[c].deleting && forall d :: d in sh.works ==> d == c
    ensures AgentWrite(sh, c, {}, sh.works[c].status) == AgentTurn(sh)
  {
    var rest := map d | d in sh.works && !sh.works[d].deleting :: sh.works[d];
    assert rest == sh.works - {c} && rest != sh.works;
  }

  /* ----- Rest ----- */

  lemma RankBound(k: Key, sh: Shard, env: Env)
    ensures Rank(k, sh, env) <= 5
  {
  }

  lemma RestIsFixed(k: Key, sh: Shard, env: Env, actor: Actor)
    requires Calm(k, sh, env) && Rank(k, sh, env) == 0
    ensures Turn(k, sh, env, actor) == sh
  {
    TurnDropsOrStays(k, sh, env, actor);
  }

  lemma RestIsSettled(k: Key, sh: Shard, env: Env)
    requires Calm(k, sh, env) && Rank(k, sh, env) == 0 && sh.capp.Some?
    ensures Placed(sh.capp.value) && Settled(k, sh, env.resources)
  {
  }
}
