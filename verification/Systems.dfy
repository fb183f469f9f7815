/** The whole system: many Capps in one store, and why each one can be looked at alone. */
module Systems {
  import opened Objects
  import opened Names
  import opened Usernames
  import opened Admission
  import opened Shards
  import opened Protocol
  import opened Versions

  /** The API server's content. */
  datatype Store = Store(capps: map<Key, Capp>, works: map<WorkKey, Work>, clock: nat)

  /** The ManifestWorks of one name, by cluster. */
  function Named(works: map<WorkKey, Work>, name: string): map<string, Work> {
    map wk | wk in works && wk.name == name :: wk.cluster := works[wk]
  }

  /** `works` with the entries of one name replaced. */
  function Replaced(works: map<WorkKey, Work>, name: string, own: map<string, Work>): map<WorkKey, Work> {
    (map wk | wk in works && wk.name != name :: works[wk]) + (map c | c in own :: WorkKey(c, name) := own[c])
  }

  function ShardOf(st: Store, k: Key): Shard {
    Shard(if k in st.capps then Some(st.capps[k]) else None, Named(st.works, WorkName(k)), st.clock)
  }

  function With(st: Store, k: Key, sh: Shard): Store {
    Store(if sh.capp.Some? then st.capps[k := sh.capp.value] else st.capps - {k},
          Replaced(st.works, WorkName(k), sh.works), sh.clock)
  }

  lemma InNamed(works: map<WorkKey, Work>, name: string, c: string)
    ensures c in Named(works, name) <==> WorkKey(c, name) in works
    ensures c in Named(works, name) ==> Named(works, name)[c] == works[WorkKey(c, name)]
  {
    if WorkKey(c, name) in works {
      assert WorkKey(c, name).cluster == c;
    }
  }

  lemma SameWorks(a: map<string, Work>, b: map<string, Work>)
    requires forall c :: c in a <==> c in b
    requires forall c :: c in b ==> a[c] == b[c]
    ensures a == b
  {
  }

  lemma NamedReplaced(works: map<WorkKey, Work>, name: string, own: map<string, Work>)
    ensures Named(Replaced(works, name, own), name) == own
  {
    var all := Replaced(works, name, own);
    forall c
      ensures (c in Named(all, name) <==> c in own) && (c in own ==> Named(all, name)[c] == own[c])
    {
      InNamed(all, name, c);
    }
    SameWorks(Named(all, name), own);
  }

  lemma OtherReplaced(works: map<WorkKey, Work>, name: string, own: map<string, Work>, wk: WorkKey)
    requires wk.name != name
    ensures wk in Replaced(works, name, own) <==> wk in works
    ensures wk in works ==> Replaced(works, name, own)[wk] == works[wk]
  {
  }

  lemma NamedOther(works: map<WorkKey, Work>, name: string, own: map<string, Work>, other: string)
    requires other != name
    ensures Named(Replaced(works, name, own), other) == Named(works, other)
  {
    var all := Replaced(works, name, own);
    forall c
      ensures c in Named(all, other) <==> c in Named(works, other)
      ensures c in Named(works, other) ==> Named(all, other)[c] == Named(works, other)[c]
    {
      InNamed(all, other, c);
      InNamed(works, other, c);
      OtherReplaced(works, name, own, WorkKey(c, other));
    }
    SameWorks(Named(all, other), Named(works, other));
  }

  lemma WithThenShard(st: Store, k: Key, sh: Shard)
    ensures ShardOf(With(st, k, sh), k) == sh
  {
    NamedReplaced(st.works, WorkName(k), sh.works);
  }

  lemma WithFrames(st: Store, k: Key, sh: Shard, other: Key)
    requires other != k && WorkName(other) != WorkName(k)
    ensures ShardOf(With(st, k, sh), other) == ShardOf(st, other).(clock := sh.clock)
  {
    NamedOther(st.works, WorkName(k), sh.works, WorkName(other));
  }

  /** The store and the state of both controllers. An absent key is idle. */
  datatype System = System(store: Store, pWaiting: set<Key>, placing: map<Key, Placing>,
                           sWaiting: set<Key>, syncing: map<Key, Syncing>)

  datatype Action = At(key: Key, act: Act) | ProcessRestarts

  function SliceOf(sys: System, k: Key): Slice {
    Slice(ShardOf(sys.store, k),
          k in sys.pWaiting, if k in sys.placing then sys.placing[k] else PlacingIdle,
          k in sys.sWaiting, if k in sys.syncing then sys.syncing[k] else SyncingIdle)
  }

  function WithSlice(sys: System, k: Key, sl: Slice): System {
    System(With(sys.store, k, sl.sh),
           if sl.pWaiting then sys.pWaiting + {k} else sys.pWaiting - {k}, sys.placing[k := sl.p],
           if sl.sWaiting then sys.sWaiting + {k} else sys.sWaiting - {k}, sys.syncing[k := sl.s])
  }

  /** One action of the system; a restart hits all keys at once. */
  function Next(sys: System, action: Action): Option<System> {
    match action
    case At(k, act) =>
      if act.Crash? || act.Tick? then None
      else (match Step(k, SliceOf(sys, k), act)
            case Some(sl) => Some(WithSlice(sys, k, sl))
            case None => None)
    case ProcessRestarts =>
      Some(Restarted(sys))
  }

  function Restarted(sys: System): System {
    var st := sys.store;
    System(st, set k | k in st.capps && PlacementAccepts(CappCreated(st.capps[k])), map[],
           set k | k in st.capps && SyncAccepts(CappCreated(st.capps[k])), map[])
  }

  /** What an action is from the point of view of one key: its own step, a crash, or time passing. */
  function ActFor(action: Action, next: System, k: Key): Act {
    if action.ProcessRestarts? then Crash
    else if action.key == k then action.act
    else Tick(next.store.clock)
  }

  lemma UpdateCappTime(sh: Shard, env: AdmissionEnv, user: string, req: Capp)
    ensures UpdateCapp(sh, env, user, req).1.clock >= sh.clock
  {
  }

  lemma PlaceTime(sl: Slice, env: Env, next: Slice)
    requires PlaceStep(sl, env) == Some(next)
    ensures next.sh.clock >= sl.sh.clock
  {
    if sl.p.WritingAnnotation? {
      var req := Annotate(sl.p.snap, sl.p.cluster);
      UpdateCappTime(sl.sh, env.admission, CONTROLLER, req);
      CommitShard(sl, UpdateCapp(sl.sh, env.admission, CONTROLLER, req).1);
    }
  }

  lemma SyncTime(k: Key, sl: Slice, env: Env, next: Slice)
    requires SyncStep(k, sl, env) == Some(next)
    ensures next.sh.clock >= sl.sh.clock
  {
    if sl.s.AddingFinalizer? || sl.s.RemovingFinalizer? {
      var snap := sl.s.snap;
      var req := snap.(finalizers := if sl.s.AddingFinalizer? then snap.finalizers + {CLEANUP}
                                     else snap.finalizers - {CLEANUP});
      UpdateCappTime(sl.sh, env.admission, CONTROLLER, req);
      CommitShard(sl, UpdateCapp(sl.sh, env.admission, CONTROLLER, req).1);
    } else {
      SyncWorkTime(k, sl, env, next);
    }
  }

  lemma SyncWorkTime(k: Key, sl: Slice, env: Env, next: Slice)
    requires SyncStep(k, sl, env) == Some(next) && !sl.s.AddingFinalizer? && !sl.s.RemovingFinalizer?
    ensures next.sh.clock >= sl.sh.clock
  {
  }

  lemma EditTime(k: Key, sl: Slice, act: Act, next: Slice)
    requires Step(k, sl, act) == Some(next) && act.Edit?
    ensures next.sh.clock >= sl.sh.clock
  {
    var req := sl.sh.capp.value.(finalizers := act.finalizers, labels := act.labels,
                                 annotations := act.annotations, spec := act.spec);
    UpdateCappTime(sl.sh, act.env.admission, act.username, req);
    CommitShard(sl, UpdateCapp(sl.sh, act.env.admission, act.username, req).1);
  }

  lemma TimePasses(k: Key, sl: Slice, act: Act, next: Slice)
    requires Step(k, sl, act) == Some(next)
    ensures next.sh.clock >= sl.sh.clock
  {
    match act
    case Place(env) => PlaceTime(sl, env, next);
    case Sync(env) => SyncTime(k, sl, env, next);
    case Edit(_, _, _, _, _, _) => EditTime(k, sl, act, next);
    case PlaceUnanswered(env) =>
      var done := UnansweredIs(k, sl, act, next);
      PlaceTime(sl, env, done);
    case SyncUnanswered(env) =>
      var done := UnansweredIs(k, sl, act, next);
      SyncTime(k, sl, env, done);
    case _ =>
  }

  lemma WithSliceThenSlice(sys: System, k: Key, sl: Slice)
    ensures SliceOf(WithSlice(sys, k, sl), k) == sl
  {
    WithThenShard(sys.store, k, sl.sh);
  }

  lemma WithSliceFrames(sys: System, k: Key, sl: Slice, other: Key)
    requires other != k && WorkName(other) != WorkName(k)
    ensures SliceOf(WithSlice(sys, k, sl), other)
         == SliceOf(sys, other).(sh := SliceOf(sys, other).sh.(clock := sl.sh.clock))
  {
    WithFrames(sys.store, k, sl.sh, other);
  }

  /** Keys with different ManifestWork names do not interfere: every action of the system is, for every key, a step
      of that key's own machine. */
  lemma Projection(sys: System, action: Action, next: System, k: Key)
    requires Next(sys, action) == Some(next)
    requires action.At? && action.key != k ==> WorkName(action.key) != WorkName(k)
    ensures Step(k, SliceOf(sys, k), ActFor(action, next, k)) == Some(SliceOf(next, k))
  {
    if action.ProcessRestarts? {
      RestartIs(sys, k);
      CrashIs(k, SliceOf(sys, k));
    } else if action.key == k {
      ProjectionSelf(sys, k, action.act, next);
    } else {
      ProjectionOther(sys, action.key, action.act, next, k);
    }
  }

  lemma RestartIs(sys: System, k: Key)
    ensures SliceOf(Restarted(sys), k) == Restart(SliceOf(sys, k))
  {
    assert ShardOf(Restarted(sys).store, k) == ShardOf(sys.store, k);
  }

  lemma CrashIs(k: Key, sl: Slice)
    ensures Step(k, sl, Crash) == Some(Restart(sl))
  {
  }

  lemma ProjectionSelf(sys: System, k: Key, act: Act, next: System)
    requires Next(sys, At(k, act)) == Some(next)
    ensures Step(k, SliceOf(sys, k), act) == Some(SliceOf(next, k))
  {
    var sl := Step(k, SliceOf(sys, k), act).value;
    WithSliceThenSlice(sys, k, sl);
  }

  lemma ProjectionOther(sys: System, j: Key, act: Act, next: System, k: Key)
    requires Next(sys, At(j, act)) == Some(next) && j != k && WorkName(j) != WorkName(k)
    ensures Step(k, SliceOf(sys, k), Tick(next.store.clock)) == Some(SliceOf(next, k))
  {
    var sl := Step(j, SliceOf(sys, j), act).value;
    TimePasses(j, SliceOf(sys, j), act, sl);
    WithSliceFrames(sys, j, sl, k);
    TickIs(k, SliceOf(sys, k), sl.sh.clock);
  }

  lemma TickIs(k: Key, sl: Slice, clock: nat)
    requires clock >= sl.sh.clock
    ensures Step(k, sl, Tick(clock)) == Some(sl.(sh := sl.sh.(clock := clock)))
  {
  }

  /* ----- Runs ----- */

  predicate Initial(sys: System) {
    sys.store.capps == map[] && sys.store.works == map[]
    && sys.pWaiting == {} && sys.placing == map[] && sys.sWaiting == {} && sys.syncing == map[]
  }

  /** A run from an empty store; only the given Capps are acted on. */
  predicate IsRun(keys: set<Key>, states: seq<System>, actions: seq<Action>) {
    && |states| == |actions| + 1 && Initial(states[0])
    && (forall i :: 0 <= i < |actions| ==> Next(states[i], actions[i]) == Some(states[i + 1]))
    && (forall i :: 0 <= i < |actions| && actions[i].At? ==> actions[i].key in keys)
  }

  /** The run as one key sees it. */
  predicate IsSliceRun(k: Key, slices: seq<Slice>, acts: seq<Act>) {
    && |slices| == |acts| + 1
    && slices[0] == Slice(Shard(None, map[], slices[0].sh.clock), false, PlacingIdle, false, SyncingIdle)
    && (forall i :: 0 <= i < |acts| ==> Step(k, slices[i], acts[i]) == Some(slices[i + 1]))
  }

  lemma RunStep(k: Key, slices: seq<Slice>, acts: seq<Act>, i: nat)
    requires IsSliceRun(k, slices, acts) && i < |acts|
    ensures Step(k, slices[i], acts[i]) == Some(slices[i + 1])
  {
  }

  function SlicesFor(states: seq<System>, k: Key): (slices: seq<Slice>)
    ensures |slices| == |states| && forall i :: 0 <= i < |states| ==> slices[i] == SliceOf(states[i], k)
  {
    if states == [] then [] else [SliceOf(states[0], k)] + SlicesFor(states[1..], k)
  }

  function ActsFor(states: seq<System>, actions: seq<Action>, k: Key): (acts: seq<Act>)
    requires |states| == |actions| + 1
    ensures |acts| == |actions| && forall i :: 0 <= i < |actions| ==> acts[i] == ActFor(actions[i], states[i + 1], k)
  {
    if actions == [] then [] else [ActFor(actions[0], states[1], k)] + ActsFor(states[1..], actions[1..], k)
  }

  /** The acts of a key are the actions at it; the others appear as crashes and as time passing. */
  lemma ActIs(states: seq<System>, actions: seq<Action>, k: Key, i: nat)
    requires |states| == |actions| + 1 && i < |actions|
    ensures SlicesFor(states, k)[i] == SliceOf(states[i], k)
    ensures var act := ActsFor(states, actions, k)[i];
      if actions[i].At? && actions[i].key == k then act == actions[i].act else act.Crash? || act.Tick?
  {
    assert ActsFor(states, actions, k)[i] == ActFor(actions[i], states[i + 1], k);
  }

  /** Without name collisions, a run of the system is a run of each key's machine. */
  lemma RunProjects(keys: set<Key>, states: seq<System>, actions: seq<Action>, k: Key)
    requires IsRun(keys, states, actions) && NoCollision(keys) && k in keys
    ensures IsSliceRun(k, SlicesFor(states, k), ActsFor(states, actions, k))
  {
    var slices, acts := SlicesFor(states, k), ActsFor(states, actions, k);
    forall i | 0 <= i < |acts|
      ensures Step(k, slices[i], acts[i]) == Some(slices[i + 1])
    {
      Projection(states[i], actions[i], states[i + 1], k);
    }
  }

  predicate Owned(keys: set<Key>, st: Store) {
    forall wk :: wk in st.works ==> exists k :: k in keys && wk.name == WorkName(k)
  }

  lemma WithOwned(keys: set<Key>, st: Store, k: Key, sh: Shard)
    requires Owned(keys, st) && k in keys
    ensures Owned(keys, With(st, k, sh))
  {
    forall wk | wk in With(st, k, sh).works
      ensures exists j :: j in keys && wk.name == WorkName(j)
    {
      if wk.name != WorkName(k) { OtherReplaced(st.works, WorkName(k), sh.works, wk); }
    }
  }

  lemma OwnedStep(keys: set<Key>, sys: System, action: Action, next: System)
    requires Owned(keys, sys.store) && Next(sys, action) == Some(next)
    requires action.At? ==> action.key in keys
    ensures Owned(keys, next.store)
  {
    if action.At? {
      WithOwned(keys, sys.store, action.key, Step(action.key, SliceOf(sys, action.key), action.act).value.sh);
    }
  }

  /** Every ManifestWork in the store carries the name of one of the Capps. */
  lemma {:induction false} WorksHaveOwners(keys: set<Key>, states: seq<System>, actions: seq<Action>, n: nat)
    requires IsRun(keys, states, actions) && n < |states|
    ensures Owned(keys, states[n].store)
  {
    if n > 0 {
      WorksHaveOwners(keys, states, actions, n - 1);
      assert Next(states[n - 1], actions[n - 1]) == Some(states[n - 1 + 1]);
      OwnedStep(keys, states[n - 1], actions[n - 1], states[n]);
    }
  }
}
