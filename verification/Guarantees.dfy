/** The protocol's promises, for every run of the system. */
module Guarantees {
  import opened Objects
  import opened Names
  import opened Usernames
  import opened Decisions
  import opened Assembly
  import opened Admission
  import opened Shards
  import opened Protocol
  import opened Versions
  import opened Safety
  import opened Queues
  import opened Systems

  /* ----- Conditions on a run ----- */

  /** No status write of a placement reconcile moves a placed Capp. */
  predicate KeepsRun(states: seq<System>, actions: seq<Action>)
    requires |states| == |actions| + 1
  {
    forall i :: 0 <= i < |actions| && actions[i].At? ==> KeepsAt(SliceOf(states[i], actions[i].key), actions[i].act)
  }

  /** No sync that nothing has told to come back updates a ManifestWork that is being deleted. */
  predicate NeverAdopts(states: seq<System>, actions: seq<Action>)
    requires |states| == |actions| + 1
  {
    forall i :: 0 <= i < |actions| && actions[i].At? ==> !AdoptsAt(SliceOf(states[i], actions[i].key), actions[i].act)
  }

  /** Referenced objects do not change. */
  predicate SteadyRun(actions: seq<Action>, res: Resources) {
    forall i :: 0 <= i < |actions| && actions[i].At? ==> SteadyAt(actions[i].act, res)
  }

  /* ----- Invariants along the run of one key ----- */

  lemma {:induction false} VersionsHold(k: Key, slices: seq<Slice>, acts: seq<Act>, n: nat)
    requires IsSliceRun(k, slices, acts) && n < |slices|
    ensures VersionInv(slices[n])
  {
    if n > 0 {
      VersionsHold(k, slices, acts, n - 1);
      RunStep(k, slices, acts, n - 1);
      VersionStep(k, slices[n - 1], acts[n - 1], slices[n]);
    }
  }

  lemma {:induction false} SafeHolds(k: Key, slices: seq<Slice>, acts: seq<Act>, n: nat)
    requires IsSliceRun(k, slices, acts) && n < |slices|
    requires forall i :: 0 <= i < n ==> KeepsAt(slices[i], acts[i])
    ensures SafeInv(slices[n])
  {
    if n > 0 {
      SafeHolds(k, slices, acts, n - 1);
      RunStep(k, slices, acts, n - 1);
      SafeStep(k, slices[n - 1], acts[n - 1], slices[n]);
    }
  }

  lemma StartsPending(k: Key, slices: seq<Slice>, acts: seq<Act>)
    requires IsSliceRun(k, slices, acts)
    ensures Pending(slices[0])
  {
  }

  lemma {:induction false} PendingHolds(k: Key, slices: seq<Slice>, acts: seq<Act>, n: nat)
    requires IsSliceRun(k, slices, acts) && n < |slices|
    ensures Pending(slices[n])
  {
    if n == 0 {
      StartsPending(k, slices, acts);
    } else {
      PendingHolds(k, slices, acts, n - 1);
      VersionsHold(k, slices, acts, n - 1);
      RunStep(k, slices, acts, n - 1);
      PendingStep(k, slices[n - 1], acts[n - 1], slices[n]);
    }
  }

  lemma StartsQueued(k: Key, slices: seq<Slice>, acts: seq<Act>, res: Resources)
    requires IsSliceRun(k, slices, acts)
    ensures QueueInv(k, slices[0], res)
  {
  }

  lemma {:induction false} QueuesHold(k: Key, slices: seq<Slice>, acts: seq<Act>, res: Resources, n: nat)
    requires IsSliceRun(k, slices, acts) && n < |slices|
    requires forall i :: 0 <= i < n ==> SteadyAt(acts[i], res) && !AdoptsAt(slices[i], acts[i])
    ensures QueueInv(k, slices[n], res)
  {
    if n == 0 {
      StartsQueued(k, slices, acts, res);
    } else {
      QueuesHold(k, slices, acts, res, n - 1);
      VersionsHold(k, slices, acts, n - 1);
      RunStep(k, slices, acts, n - 1);
      QueueStep(k, slices[n - 1], acts[n - 1], res, slices[n]);
    }
  }

  /* ----- When placed live Capps are deployed or pending ----- */

  /** Along any run with steady references, a placed live Capp is deployed or pending for sync in every state exactly
      when no sync adopts a ManifestWork that is being deleted. */
  lemma LiveIff(k: Key, slices: seq<Slice>, acts: seq<Act>, res: Resources)
    requires IsSliceRun(k, slices, acts)
    requires forall i :: 0 <= i < |acts| ==> SteadyAt(acts[i], res)
    ensures (forall n :: 0 <= n < |slices| ==> LiveSafe(k, slices[n], res))
       <==> (forall i :: 0 <= i < |acts| ==> !AdoptsAt(slices[i], acts[i]))
  {
    if forall i :: 0 <= i < |acts| ==> !AdoptsAt(slices[i], acts[i]) {
      forall n | 0 <= n < |slices|
        ensures LiveSafe(k, slices[n], res)
      {
        QueuesHold(k, slices, acts, res, n);
      }
    } else {
      var i :| 0 <= i < |acts| && AdoptsAt(slices[i], acts[i]);
      VersionsHold(k, slices, acts, i);
      RunStep(k, slices, acts, i);
      AdoptingForgets(k, slices[i], acts[i], res, slices[i + 1]);
    }
  }

  /* ----- When status and annotation agree ----- */

  /** A status write that moves a placed Capp leaves its recorded site different from its annotation. */
  lemma MovingDisagrees(k: Key, sl: Slice, act: Act, next: Slice)
    requires VersionInv(sl) && Step(k, sl, act) == Some(next) && !KeepsAt(sl, act)
    ensures !Agrees(next.sh)
  {
  }

  /** Along any run, recorded site and annotation agree on every placed Capp in every state exactly when no status
      write moves a placed Capp; and then the guard and the single home hold in every state. */
  lemma AgreeIff(k: Key, slices: seq<Slice>, acts: seq<Act>)
    requires IsSliceRun(k, slices, acts)
    ensures (forall n :: 0 <= n < |slices| ==> Agrees(slices[n].sh))
       <==> (forall i :: 0 <= i < |acts| ==> KeepsAt(slices[i], acts[i]))
    ensures (forall i :: 0 <= i < |acts| ==> KeepsAt(slices[i], acts[i])) ==>
      forall n :: 0 <= n < |slices| ==> Guarded(slices[n].sh) && SingleHome(slices[n].sh)
  {
    if forall i :: 0 <= i < |acts| ==> KeepsAt(slices[i], acts[i]) {
      forall n | 0 <= n < |slices|
        ensures Agrees(slices[n].sh) && Guarded(slices[n].sh) && SingleHome(slices[n].sh)
      {
        SafeHolds(k, slices, acts, n);
        SafeInvMeans(slices[n]);
      }
    } else {
      var i :| 0 <= i < |acts| && !KeepsAt(slices[i], acts[i]);
      VersionsHold(k, slices, acts, i);
      MovingDisagrees(k, slices[i], acts[i], slices[i + 1]);
    }
  }

  /* ----- From the system to one key ----- */

  lemma SteadyProjects(states: seq<System>, actions: seq<Action>, res: Resources, k: Key)
    requires |states| == |actions| + 1 && SteadyRun(actions, res)
    ensures forall i :: 0 <= i < |actions| ==> SteadyAt(ActsFor(states, actions, k)[i], res)
  {
    var acts := ActsFor(states, actions, k);
    forall i | 0 <= i < |actions|
      ensures SteadyAt(acts[i], res)
    {
      ActIs(states, actions, k, i);
    }
  }

  lemma KeepsProjects(states: seq<System>, actions: seq<Action>, k: Key)
    requires |states| == |actions| + 1 && KeepsRun(states, actions)
    ensures forall i :: 0 <= i < |actions| ==> KeepsAt(SlicesFor(states, k)[i], ActsFor(states, actions, k)[i])
  {
    var slices, acts := SlicesFor(states, k), ActsFor(states, actions, k);
    forall i | 0 <= i < |actions|
      ensures KeepsAt(slices[i], acts[i])
    {
      ActIs(states, actions, k, i);
    }
  }

  lemma NeverAdoptsProjects(states: seq<System>, actions: seq<Action>, k: Key)
    requires |states| == |actions| + 1 && NeverAdopts(states, actions)
    ensures forall i :: 0 <= i < |actions| ==> !AdoptsAt(SlicesFor(states, k)[i], ActsFor(states, actions, k)[i])
  {
    var slices, acts := SlicesFor(states, k), ActsFor(states, actions, k);
    forall i | 0 <= i < |actions|
      ensures !AdoptsAt(slices[i], acts[i])
    {
      ActIs(states, actions, k, i);
    }
  }

  /* ----- The theorems about the whole system ----- */

  /** The ManifestWork `wk` belongs to the Capp `k`, which exists under its finalizer and points to it. */
  predicate Belongs(st: Store, wk: WorkKey, k: Key) {
    && wk.name == WorkName(k) && k in st.capps
    && CLEANUP in st.capps[k].finalizers
    && wk.cluster == Placement(st.capps[k]) && wk.cluster == st.capps[k].site
  }

  lemma SafeSystem(keys: set<Key>, states: seq<System>, actions: seq<Action>, n: nat, k: Key)
    requires IsRun(keys, states, actions) && NoCollision(keys) && KeepsRun(states, actions)
    requires n < |states| && k in keys
    ensures SafeInv(SliceOf(states[n], k))
  {
    RunProjects(keys, states, actions, k);
    KeepsProjects(states, actions, k);
    SafeHolds(k, SlicesFor(states, k), ActsFor(states, actions, k), n);
  }

  /** As long as no status write moves a placed Capp: in every reachable state of every interleaving, a ManifestWork
      has a Capp that exists, carries the cleanup finalizer and names this ManifestWork in both places; so no Capp
      disappears before its ManifestWork. */
  lemma FinalizerGuardsDeployment(keys: set<Key>, states: seq<System>, actions: seq<Action>, n: nat)
    requires IsRun(keys, states, actions) && NoCollision(keys) && KeepsRun(states, actions)
    requires n < |states|
    ensures forall wk :: wk in states[n].store.works ==>
      exists k :: k in keys && Belongs(states[n].store, wk, k)
  {
    var st := states[n].store;
    WorksHaveOwners(keys, states, actions, n);
    forall wk | wk in st.works
      ensures exists k :: k in keys && Belongs(st, wk, k)
    {
      var k :| k in keys && wk.name == WorkName(k);
      SafeSystem(keys, states, actions, n, k);
      SafeInvMeans(SliceOf(states[n], k));
      InNamed(st.works, WorkName(k), wk.cluster);
      assert wk == WorkKey(wk.cluster, WorkName(k));
      assert Belongs(st, wk, k);
    }
  }

  /** A Capp has at most one ManifestWork over all clusters. */
  lemma SingleManifestWork(keys: set<Key>, states: seq<System>, actions: seq<Action>, n: nat,
                           a: WorkKey, b: WorkKey)
    requires IsRun(keys, states, actions) && NoCollision(keys) && KeepsRun(states, actions)
    requires n < |states| && a in states[n].store.works && b in states[n].store.works && a.name == b.name
    ensures a == b
  {
    FinalizerGuardsDeployment(keys, states, actions, n);
    var st := states[n].store;
    var j :| j in keys && Belongs(st, a, j);
    var k :| k in keys && Belongs(st, b, k);
    assert j == k;
  }

  /** In every reachable state of every run, recorded site and annotation agree on all placed Capps, exactly when no
      status write moves a placed Capp. */
  lemma SitesAgreeIff(keys: set<Key>, states: seq<System>, actions: seq<Action>)
    requires IsRun(keys, states, actions) && NoCollision(keys)
    ensures (forall n, k :: 0 <= n < |states| && k in keys ==> Agrees(ShardOf(states[n].store, k)))
       <==> KeepsRun(states, actions)
  {
    if KeepsRun(states, actions) {
      forall n, k | 0 <= n < |states| && k in keys
        ensures Agrees(ShardOf(states[n].store, k))
      {
        SafeSystem(keys, states, actions, n, k);
      }
    } else {
      var i :| 0 <= i < |actions| && actions[i].At? && !KeepsAt(SliceOf(states[i], actions[i].key), actions[i].act);
      MovedInSystem(keys, states, actions, i);
    }
  }

  lemma MovedInSystem(keys: set<Key>, states: seq<System>, actions: seq<Action>, i: nat)
    requires IsRun(keys, states, actions) && NoCollision(keys) && i < |actions| && actions[i].At?
    requires !KeepsAt(SliceOf(states[i], actions[i].key), actions[i].act)
    ensures !Agrees(ShardOf(states[i + 1].store, actions[i].key))
  {
    var k := actions[i].key;
    var slices, acts := SlicesFor(states, k), ActsFor(states, actions, k);
    RunProjects(keys, states, actions, k);
    VersionsHold(k, slices, acts, i);
    ActIs(states, actions, k, i);
    MovingDisagrees(k, slices[i], acts[i], slices[i + 1]);
  }

  /** In every reachable state, whatever the decisions and the references: an unplaced Capp is pending for placement,
      and a placed one that is being deleted and not released is pending for sync. */
  lemma NeverForgotten(keys: set<Key>, states: seq<System>, actions: seq<Action>, n: nat, k: Key)
    requires IsRun(keys, states, actions) && NoCollision(keys) && n < |states| && k in keys
    ensures UnplacedPending(SliceOf(states[n], k)) && ReleasePending(SliceOf(states[n], k))
  {
    RunProjects(keys, states, actions, k);
    PendingHolds(k, SlicesFor(states, k), ActsFor(states, actions, k), n);
  }

  /** In every reachable state a placed live Capp is deployed, and so settled, or pending for sync, when references are
      steady and no sync adopts a ManifestWork that is being deleted. */
  lemma NoLostWork(keys: set<Key>, states: seq<System>, actions: seq<Action>, res: Resources, n: nat, k: Key)
    requires IsRun(keys, states, actions) && NoCollision(keys)
    requires SteadyRun(actions, res) && NeverAdopts(states, actions)
    requires n < |states| && k in keys
    ensures LiveSafe(k, SliceOf(states[n], k), res) && LivePending(k, SliceOf(states[n], k), res)
  {
    SystemQueuesHold(keys, states, actions, res, n, k);
  }

  lemma SystemQueuesHold(keys: set<Key>, states: seq<System>, actions: seq<Action>, res: Resources, n: nat, k: Key)
    requires IsRun(keys, states, actions) && NoCollision(keys)
    requires SteadyRun(actions, res) && NeverAdopts(states, actions)
    requires n < |states| && k in keys
    ensures QueueInv(k, SliceOf(states[n], k), res)
  {
    RunProjects(keys, states, actions, k);
    SteadyProjects(states, actions, res, k);
    NeverAdoptsProjects(states, actions, k);
    QueuesHold(k, SlicesFor(states, k), ActsFor(states, actions, k), res, n);
  }

  /** With steady references, placed live Capps are deployed or pending in all states exactly when no sync adopts. */
  lemma SystemLiveIff(keys: set<Key>, states: seq<System>, actions: seq<Action>, res: Resources)
    requires IsRun(keys, states, actions) && NoCollision(keys) && SteadyRun(actions, res)
    ensures (forall n, k :: 0 <= n < |states| && k in keys ==> LiveSafe(k, SliceOf(states[n], k), res))
       <==> NeverAdopts(states, actions)
  {
    if NeverAdopts(states, actions) {
      forall n, k | 0 <= n < |states| && k in keys
        ensures LiveSafe(k, SliceOf(states[n], k), res)
      {
        NoLostWork(keys, states, actions, res, n, k);
      }
    } else {
      var i :| 0 <= i < |actions| && actions[i].At? && AdoptsAt(SliceOf(states[i], actions[i].key), actions[i].act);
      AdoptedInSystem(keys, states, actions, res, i);
    }
  }

  lemma AdoptedInSystem(keys: set<Key>, states: seq<System>, actions: seq<Action>, res: Resources, i: nat)
    requires IsRun(keys, states, actions) && NoCollision(keys) && i < |actions| && actions[i].At?
    requires AdoptsAt(SliceOf(states[i], actions[i].key), actions[i].act)
    ensures !LiveSafe(actions[i].key, SliceOf(states[i + 1], actions[i].key), res)
  {
    var k := actions[i].key;
    var slices, acts := SlicesFor(states, k), ActsFor(states, actions, k);
    RunProjects(keys, states, actions, k);
    VersionsHold(k, slices, acts, i);
    RunStep(k, slices, acts, i);
    ActIs(states, actions, k, i);
    AdoptingForgets(k, slices[i], acts[i], res, slices[i + 1]);
  }

  /** When no status write moves a placed Capp, no sync adopts. */
  lemma KeepsNeverAdopts(keys: set<Key>, states: seq<System>, actions: seq<Action>)
    requires IsRun(keys, states, actions) && NoCollision(keys) && KeepsRun(states, actions)
    ensures NeverAdopts(states, actions)
  {
    forall i | 0 <= i < |actions| && actions[i].At?
      ensures !AdoptsAt(SliceOf(states[i], actions[i].key), actions[i].act)
    {
      SafeSystem(keys, states, actions, i, actions[i].key);
      SafeNeverAdopts(SliceOf(states[i], actions[i].key), actions[i].act);
    }
  }

  lemma InvariantsHold(keys: set<Key>, states: seq<System>, actions: seq<Action>, res: Resources, n: nat, k: Key)
    requires IsRun(keys, states, actions) && NoCollision(keys)
    requires KeepsRun(states, actions) && SteadyRun(actions, res)
    requires n < |states| && k in keys
    ensures SafeInv(SliceOf(states[n], k)) && QueueInv(k, SliceOf(states[n], k), res)
  {
    KeepsNeverAdopts(keys, states, actions);
    SafeSystem(keys, states, actions, n, k);
    SystemQueuesHold(keys, states, actions, res, n, k);
  }

  /* ----- The two-write commit, whatever the decisions are ----- */

  /** The step in which the annotation write of a placement reconcile succeeds. */
  predicate Commits(sl: Slice, act: Act) {
    (act.Place? || act.PlaceUnanswered?) && sl.p.WritingAnnotation?
    && UpdateCapp(sl.sh, act.env.admission, CONTROLLER, Annotate(sl.p.snap, sl.p.cluster)).0.Done?
  }

  /** When the annotation is written, the Capp is exactly as the status write returned it, and its status already
      names the same cluster. */
  lemma TwoWriteCommit(k: Key, sl: Slice, act: Act, next: Slice)
    requires VersionInv(sl) && Step(k, sl, act) == Some(next) && Commits(sl, act)
    ensures sl.sh.capp == Some(sl.p.snap) && sl.p.snap.site == sl.p.cluster
    ensures next.sh.capp.Some? ==>
      Placement(next.sh.capp.value) == sl.p.cluster && next.sh.capp.value.site == sl.p.cluster
    ensures Provenance(sl.p.cluster, sl.p.origin.config, sl.p.snap.spec.site, sl.p.origin.lookup)
  {
    ResolveIffProvenance(sl.p.cluster, sl.p.origin.config, sl.p.origin.site, sl.p.origin.lookup);
  }

  /** The commit changes the placement annotation, may supply resources, and leaves everything else of the Capp as it
      was, other annotations and labels included. */
  lemma CommitChangesOnly(k: Key, sl: Slice, act: Act, next: Slice)
    requires VersionInv(sl) && Step(k, sl, act) == Some(next) && Commits(sl, act) && next.sh.capp.Some?
    ensures sl.sh.capp.Some? && act.env.admission.config.Some?
    ensures var (before, after, cfg) := (sl.sh.capp.value, next.sh.capp.value, act.env.admission.config.value);
      && after.uid == before.uid && after.deleting == before.deleting && after.finalizers == before.finalizers
      && after.labels == before.labels && after.site == before.site && after.report == before.report
      && HAS_PLACEMENT in after.annotations && after.annotations[HAS_PLACEMENT] == sl.p.cluster
      && (forall x :: x != HAS_PLACEMENT ==>
            && (x in after.annotations <==> x in before.annotations)
            && (x in before.annotations ==> after.annotations[x] == before.annotations[x]))
      && after.spec.(containers := before.spec.containers) == before.spec
      && |after.spec.containers| == |before.spec.containers|
      && (forall i :: 0 <= i < |before.spec.containers| ==>
            && Supplied(before.spec.containers[i].requests, after.spec.containers[i].requests, cfg.defaultRequests)
            && Supplied(before.spec.containers[i].limits, after.spec.containers[i].limits, cfg.defaultLimits))
  {
    var snap, env := sl.p.snap, act.env.admission;
    var req := Annotate(snap, sl.p.cluster);
    var (reply, sh) := UpdateCapp(sl.sh, env, CONTROLLER, req);
    CommitShard(sl, sh);
    UpdateCappIs(sl.sh, env, CONTROLLER, req);
    AnnotatedOnly(snap, sl.p.cluster, reply.value, env.config.value);
  }

  lemma AnnotatedOnly(snap: Capp, cluster: string, after: Capp, cfg: RcsConfig)
    requires StoredFor(Asked(snap, Annotate(snap, cluster)), after.(version := snap.version), cfg, CONTROLLER)
    ensures after.labels == snap.labels && after.finalizers == snap.finalizers
    ensures after.site == snap.site && after.report == snap.report
    ensures after.uid == snap.uid && after.deleting == snap.deleting
    ensures HAS_PLACEMENT in after.annotations && after.annotations[HAS_PLACEMENT] == cluster
    ensures forall x :: x != HAS_PLACEMENT ==>
      && (x in after.annotations <==> x in snap.annotations)
      && (x in snap.annotations ==> after.annotations[x] == snap.annotations[x])
    ensures after.spec.(containers := snap.spec.containers) == snap.spec
  {
    KeysDiffer();
    ControllerIsExcluded();
  }

  /** The Capp of `a` is still there in `b` and is placed where it was. */
  predicate SamePlacement(a: Shard, b: Shard) {
    && a.capp.Some? && b.capp.Some? && a.capp.value.uid == b.capp.value.uid
    && Placement(a.capp.value) == Placement(b.capp.value)
  }

  lemma PlacementKeptByPlace(k: Key, sl: Slice, env: Env, next: Slice)
    requires VersionInv(sl) && PlaceStep(sl, env) == Some(next) && !Commits(sl, Place(env))
    requires next.sh.capp.Some?
    ensures SamePlacement(sl.sh, next.sh)
  {
  }

  lemma PlacementKeptBySync(k: Key, sl: Slice, env: Env, next: Slice)
    requires VersionInv(sl) && SyncStep(k, sl, env) == Some(next) && next.sh.capp.Some?
    ensures SamePlacement(sl.sh, next.sh)
  {
    if sl.s.AddingFinalizer? {
      UpdateIsWritten(sl.sh, env.admission, CONTROLLER, sl.s.snap.(finalizers := sl.s.snap.finalizers + {CLEANUP}));
    } else if sl.s.RemovingFinalizer? {
      UpdateIsWritten(sl.sh, env.admission, CONTROLLER, sl.s.snap.(finalizers := sl.s.snap.finalizers - {CLEANUP}));
    } else {
      SyncKeepsCapp(k, sl, env, next);
    }
  }

  lemma SyncKeepsCapp(k: Key, sl: Slice, env: Env, next: Slice)
    requires SyncStep(k, sl, env) == Some(next) && !sl.s.AddingFinalizer? && !sl.s.RemovingFinalizer?
    ensures next.sh.capp == sl.sh.capp
  {
  }

  lemma PlacementKeptByEdit(k: Key, sl: Slice, act: Act, next: Slice)
    requires Step(k, sl, act) == Some(next) && act.Edit? && next.sh.capp.Some?
    ensures SamePlacement(sl.sh, next.sh)
  {
    UpdateIsWritten(sl.sh, act.env.admission, act.username,
                    sl.sh.capp.value.(finalizers := act.finalizers, labels := act.labels,
                                      annotations := act.annotations, spec := act.spec));
  }

  lemma PlacementKeptByOthers(k: Key, sl: Slice, act: Act, next: Slice)
    requires Step(k, sl, act) == Some(next) && !act.Place? && !act.Sync? && !act.Edit?
    requires !act.PlaceUnanswered? && !act.SyncUnanswered?
    requires next.sh.capp.Some? && Placed(next.sh.capp.value)
    ensures SamePlacement(sl.sh, next.sh)
  {
  }

  /** Nothing but a committing placement step places a Capp or moves it: in particular a crash, a conflict or an
      error between the two writes leaves an unplaced Capp unplaced. */
  lemma OnlyCommitsPlace(k: Key, sl: Slice, act: Act, next: Slice)
    requires VersionInv(sl) && Step(k, sl, act) == Some(next) && !Commits(sl, act)
    requires next.sh.capp.Some? && Placed(next.sh.capp.value)
    ensures SamePlacement(sl.sh, next.sh)
  {
    if act.PlaceUnanswered? || act.SyncUnanswered? {
      var done := UnansweredIs(k, sl, act, next);
      OnlyAnsweredCommitsPlace(k, sl, Answered(act), done);
    } else {
      OnlyAnsweredCommitsPlace(k, sl, act, next);
    }
  }

  lemma OnlyAnsweredCommitsPlace(k: Key, sl: Slice, act: Act, next: Slice)
    requires VersionInv(sl) && Step(k, sl, act) == Some(next) && !Commits(sl, act)
    requires !act.PlaceUnanswered? && !act.SyncUnanswered?
    requires next.sh.capp.Some? && Placed(next.sh.capp.value)
    ensures SamePlacement(sl.sh, next.sh)
  {
    if act.Place? {
      PlacementKeptByPlace(k, sl, act.env, next);
    } else if act.Sync? {
      PlacementKeptBySync(k, sl, act.env, next);
    } else if act.Edit? {
      PlacementKeptByEdit(k, sl, act, next);
    } else {
      PlacementKeptByOthers(k, sl, act, next);
    }
  }

  /** This step commits the cluster, on the Capp as it is stored, for a good reason. */
  ghost predicate CommitOf(sl: Slice, act: Act, cluster: string) {
    && Commits(sl, act) && sl.p.cluster == cluster
    && sl.sh.capp == Some(sl.p.snap) && sl.p.snap.site == cluster
    && Provenance(cluster, sl.p.origin.config, sl.p.snap.spec.site, sl.p.origin.lookup)
  }

  lemma CommitIs(k: Key, sl: Slice, act: Act, next: Slice)
    requires VersionInv(sl) && Step(k, sl, act) == Some(next) && Commits(sl, act) && next.sh.capp.Some?
    ensures CommitOf(sl, act, Placement(next.sh.capp.value))
  {
    TwoWriteCommit(k, sl, act, next);
  }

  /** A placement found after a step was committed by it or was there before. */
  lemma CommittedOrKept(k: Key, sl: Slice, act: Act, next: Slice)
    requires VersionInv(sl) && Step(k, sl, act) == Some(next)
    requires next.sh.capp.Some? && Placed(next.sh.capp.value)
    ensures CommitOf(sl, act, Placement(next.sh.capp.value)) || SamePlacement(sl.sh, next.sh)
  {
    if Commits(sl, act) {
      CommitIs(k, sl, act, next);
    } else {
      OnlyCommitsPlace(k, sl, act, next);
    }
  }

  lemma RunStartsEmpty(k: Key, slices: seq<Slice>, acts: seq<Act>)
    requires IsSliceRun(k, slices, acts)
    ensures slices[0].sh.capp.None?
  {
  }

  /** Every placement found in a run was committed by an earlier step of that run, in which it equalled the recorded
      status and came from the site and the decisions read by that reconcile. */
  lemma {:induction false} PlacementHasProvenance(k: Key, slices: seq<Slice>, acts: seq<Act>, n: nat) returns (i: nat)
    requires IsSliceRun(k, slices, acts) && n < |slices|
    requires slices[n].sh.capp.Some? && Placed(slices[n].sh.capp.value)
    ensures i < n && CommitOf(slices[i], acts[i], Placement(slices[n].sh.capp.value))
  {
    RunStartsEmpty(k, slices, acts);
    VersionsHold(k, slices, acts, n - 1);
    RunStep(k, slices, acts, n - 1);
    CommittedOrKept(k, slices[n - 1], acts[n - 1], slices[n]);
    if CommitOf(slices[n - 1], acts[n - 1], Placement(slices[n].sh.capp.value)) {
      i := n - 1;
    } else {
      i := PlacementHasProvenance(k, slices, acts, n - 1);
    }
  }

  /** The same for the whole system: the placement of any Capp was committed by an earlier action at its key. */
  lemma SystemPlacementHasProvenance(keys: set<Key>, states: seq<System>, actions: seq<Action>, n: nat, k: Key)
    returns (i: nat)
    requires IsRun(keys, states, actions) && NoCollision(keys) && n < |states| && k in keys
    requires k in states[n].store.capps && Placed(states[n].store.capps[k])
    ensures i < n && actions[i].At? && actions[i].key == k
    ensures CommitOf(SliceOf(states[i], k), actions[i].act, Placement(states[n].store.capps[k]))
  {
    RunProjects(keys, states, actions, k);
    i := PlacementHasProvenance(k, SlicesFor(states, k), ActsFor(states, actions, k), n);
    CommitIsAction(states, actions, k, i, Placement(states[n].store.capps[k]));
  }

  lemma CommitIsAction(states: seq<System>, actions: seq<Action>, k: Key, i: nat, cluster: string)
    requires |states| == |actions| + 1 && i < |actions|
    requires CommitOf(SlicesFor(states, k)[i], ActsFor(states, actions, k)[i], cluster)
    ensures actions[i].At? && actions[i].key == k && CommitOf(SliceOf(states[i], k), actions[i].act, cluster)
  {
    ActIs(states, actions, k, i);
  }

  /* ----- Stable resolution is enough ----- */

  /** `home` gives the cluster of each incarnation of a Capp. */
  type Homes = nat -> string

  /** This step does not resolve an incarnation to any other cluster than its home. */
  predicate StableAt(sl: Slice, act: Act, home: Homes) {
    act.Place? && sl.p.Choosing? && (sl.p.snap.spec.site != "" || sl.p.config.placements != []) ==>
      var choice := Resolve(sl.p.config, sl.p.snap.spec.site, act.env.lookup);
      choice.Cluster? ==> choice.name == home(sl.p.snap.uid)
  }

  /** Every incarnation of a Capp is always resolved to the same cluster. */
  predicate StableRun(states: seq<System>, actions: seq<Action>, home: Homes)
    requires |states| == |actions| + 1
  {
    forall i :: 0 <= i < |actions| && actions[i].At? ==>
      StableAt(SliceOf(states[i], actions[i].key), actions[i].act, home)
  }

  predicate AtHome(sl: Slice, home: Homes) {
    && (sl.sh.capp.Some? && Placed(sl.sh.capp.value) ==> Placement(sl.sh.capp.value) == home(sl.sh.capp.value.uid))
    && ChoseHome(sl.p, home)
  }

  predicate ChoseHome(p: Placing, home: Homes) {
    p.WritingStatus? || p.WritingAnnotation? ==> p.cluster == home(p.snap.uid)
  }

  lemma ChoiceStays(k: Key, sl: Slice, act: Act, home: Homes, next: Slice)
    requires Step(k, sl, act) == Some(next) && StableAt(sl, act, home) && ChoseHome(sl.p, home)
    ensures ChoseHome(next.p, home)
  {
    if act.Place? {
      PlaceChoiceStays(sl, act.env, home, next);
    } else if act.Sync? {
      SyncLeavesPlacing(k, sl, act.env, next);
    } else if act.SyncUnanswered? {
      var done := UnansweredIs(k, sl, act, next);
      SyncLeavesPlacing(k, sl, act.env, done);
    }
  }

  lemma PlaceChoiceStays(sl: Slice, env: Env, home: Homes, next: Slice)
    requires PlaceStep(sl, env) == Some(next) && StableAt(sl, Place(env), home) && ChoseHome(sl.p, home)
    ensures ChoseHome(next.p, home)
  {
  }

  lemma SyncLeavesPlacing(k: Key, sl: Slice, env: Env, next: Slice)
    requires SyncStep(k, sl, env) == Some(next)
    ensures next.p == sl.p
  {
  }

  lemma HomeStep(k: Key, sl: Slice, act: Act, home: Homes, next: Slice)
    requires VersionInv(sl) && AtHome(sl, home) && Step(k, sl, act) == Some(next) && StableAt(sl, act, home)
    ensures AtHome(next, home)
  {
    ChoiceStays(k, sl, act, home, next);
    if Commits(sl, act) {
      TwoWriteCommit(k, sl, act, next);
      UpdateIsWritten(sl.sh, act.env.admission, CONTROLLER, Annotate(sl.p.snap, sl.p.cluster));
      CommitShard(sl, UpdateCapp(sl.sh, act.env.admission, CONTROLLER, Annotate(sl.p.snap, sl.p.cluster)).1);
    } else if next.sh.capp.Some? && Placed(next.sh.capp.value) {
      OnlyCommitsPlace(k, sl, act, next);
    }
  }

  lemma StartsAtHome(k: Key, sl: Slice, home: Homes)
    requires sl == Slice(Shard(None, map[], sl.sh.clock), false, PlacingIdle, false, SyncingIdle)
    ensures AtHome(sl, home)
  {
  }

  lemma {:induction false} HomesHold(k: Key, slices: seq<Slice>, acts: seq<Act>, home: Homes, n: nat)
    requires IsSliceRun(k, slices, acts) && n < |slices|
    requires forall i :: 0 <= i < |acts| ==> StableAt(slices[i], acts[i], home)
    ensures AtHome(slices[n], home)
  {
    if n == 0 {
      StartsAtHome(k, slices[0], home);
    } else {
      HomesHold(k, slices, acts, home, n - 1);
      VersionsHold(k, slices, acts, n - 1);
      RunStep(k, slices, acts, n - 1);
      HomeStep(k, slices[n - 1], acts[n - 1], home, slices[n]);
    }
  }

  lemma StableProjects(states: seq<System>, actions: seq<Action>, home: Homes, k: Key)
    requires |states| == |actions| + 1 && StableRun(states, actions, home)
    ensures forall i :: 0 <= i < |actions| ==>
      StableAt(SlicesFor(states, k)[i], ActsFor(states, actions, k)[i], home)
  {
    var slices, acts := SlicesFor(states, k), ActsFor(states, actions, k);
    forall i | 0 <= i < |actions|
      ensures StableAt(slices[i], acts[i], home)
    {
      ActIs(states, actions, k, i);
    }
  }

  /** When every incarnation is always resolved to the same cluster, no status write moves a placed Capp. */
  lemma StableRunKeeps(keys: set<Key>, states: seq<System>, actions: seq<Action>, home: Homes)
    requires IsRun(keys, states, actions) && NoCollision(keys) && StableRun(states, actions, home)
    ensures KeepsRun(states, actions)
  {
    forall i | 0 <= i < |actions| && actions[i].At?
      ensures KeepsAt(SliceOf(states[i], actions[i].key), actions[i].act)
    {
      var k := actions[i].key;
      RunProjects(keys, states, actions, k);
      StableProjects(states, actions, home, k);
      HomesHold(k, SlicesFor(states, k), ActsFor(states, actions, k), home, i);
    }
  }
}
