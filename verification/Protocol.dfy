/** The two controllers as a transition system: one API call per step, any interleaving. */
module Protocol {
  import opened Objects
  import opened Usernames
  import opened Decisions
  import opened Assembly
  import opened Admission
  import opened Shards

  /* ----- One reconcile at a time per key and controller ----- */

  /** What a placement reconcile based its choice on. */
  datatype Origin = Origin(config: RcsConfig, site: string, lookup: Lookup)

  /** Where a placement reconcile stands, with its local variables. */
  datatype Placing =
    | PlacingIdle
    | ReadingConfig
    | ReadingCapp(config: RcsConfig)
    | Choosing(config: RcsConfig, snap: Capp)
    | WritingStatus(snap: Capp, cluster: string, origin: Origin)
    | WritingAnnotation(snap: Capp, cluster: string, origin: Origin)

  /** Where a sync reconcile stands. `snap` is the Capp as first read, also after the finalizer was added to it. */
  datatype Syncing =
    | SyncingIdle
    | FetchingCapp
    | AddingFinalizer(snap: Capp)
    | Assembling(snap: Capp)
    | LookingUpWork(snap: Capp, manifests: seq<Manifest>)
    | CreatingWork(snap: Capp, manifests: seq<Manifest>)
    | UpdatingWork(snap: Capp, manifests: seq<Manifest>, work: Work)
    | FindingWork(snap: Capp)
    | DeletingWork(snap: Capp)
    | RemovingFinalizer(snap: Capp)

  /** Everything about one key: its part of the store, whether it waits in each queue, and both reconciles. */
  datatype Slice = Slice(sh: Shard, pWaiting: bool, p: Placing, sWaiting: bool, s: Syncing)

  /** What the rest of the world answers during a step. */
  datatype Env = Env(config: Option<RcsConfig>, lookup: Lookup, resources: Resources, admission: AdmissionEnv)

  /** A call fails before it has an effect (`PlaceFails`, `SyncFails`), or after it, when only the reply is lost
      (`PlaceUnanswered`, `SyncUnanswered`). */
  datatype Act =
    | Create(username: string, env: Env, draft: Capp)
    | Edit(username: string, env: Env, finalizers: set<string>, labels: map<string, string>,
           annotations: map<string, string>, spec: CappSpec)
    | Delete
    | Report(report: string)
    | Agent(cluster: string, finalizers: set<string>, status: string)
    | Place(env: Env)
    | PlaceUnanswered(env: Env)
    | PlaceFails
    | Sync(env: Env)
    | SyncUnanswered(env: Env)
    | SyncFails
    | Crash
    | Tick(clock: nat)

  /* ----- Events and the queues they reach ----- */

  datatype Event = CappCreated(capp: Capp) | CappUpdated(before: Capp, capp: Capp) | CappDeleted(capp: Capp)

  /** The sync controller's event filter. */
  predicate SyncAccepts(e: Event) {
    match e
    case CappCreated(c) => ContainsPlacementAnnotation(c)
    case CappUpdated(_, c) => ContainsPlacementAnnotation(c)
    case CappDeleted(c) => ContainsPlacementAnnotation(c)
  }

  /** The placement controller's event filter. */
  predicate PlacementAccepts(e: Event) {
    match e
    case CappCreated(c) => !ContainsPlacementAnnotation(c)
    case CappUpdated(_, c) => !ContainsPlacementAnnotation(c)
    case CappDeleted(c) => !ContainsPlacementAnnotation(c)
  }

  function EventOf(before: Option<Capp>, after: Option<Capp>): Event
    requires before != after
  {
    if before.None? then CappCreated(after.value)
    else if after.None? then CappDeleted(before.value)
    else CappUpdated(before.value, after.value)
  }

  /** A change of the Capp is announced to both controllers, and each queues the key if its filter accepts. */
  function Commit(sl: Slice, sh: Shard): Slice {
    if sh.capp == sl.sh.capp then sl.(sh := sh)
    else
      var e := EventOf(sl.sh.capp, sh.capp);
      sl.(sh := sh, pWaiting := sl.pWaiting || PlacementAccepts(e), sWaiting := sl.sWaiting || SyncAccepts(e))
  }

  /** An error, or a requeue after some time: the key waits again. */
  function PlaceAgain(sl: Slice): Slice { sl.(p := PlacingIdle, pWaiting := true) }
  function SyncAgain(sl: Slice): Slice { sl.(s := SyncingIdle, sWaiting := true) }

  function Annotate(c: Capp, cluster: string): Capp {
    c.(annotations := c.annotations[HAS_PLACEMENT := cluster])
  }

  function PlaceStep(sl: Slice, env: Env): Option<Slice> {
    match sl.p
    case PlacingIdle =>
      if sl.pWaiting then Some(sl.(pWaiting := false, p := ReadingConfig)) else None
    case ReadingConfig =>
      if env.config.Some? then Some(sl.(p := ReadingCapp(env.config.value))) else Some(PlaceAgain(sl))
    case ReadingCapp(cfg) =>
      if sl.sh.capp.Some? then Some(sl.(p := Choosing(cfg, sl.sh.capp.value))) else Some(sl.(p := PlacingIdle))
    case Choosing(cfg, snap) =>
      if snap.spec.site == "" && cfg.placements == [] then None
      else (match Resolve(cfg, snap.spec.site, env.lookup)
            case Cluster(c) => Some(sl.(p := WritingStatus(snap, c, Origin(cfg, snap.spec.site, env.lookup))))
            case NoManagedCluster => Some(PlaceAgain(sl))
            case Failed => Some(PlaceAgain(sl)))
    case WritingStatus(snap, c, origin) =>
      var (reply, sh) := UpdateStatus(sl.sh, snap.(site := c));
      if reply.Done? then Some(Commit(sl, sh).(p := WritingAnnotation(reply.value, c, origin)))
      else Some(PlaceAgain(sl))
    case WritingAnnotation(snap, c, origin) =>
      var (reply, sh) := UpdateCapp(sl.sh, env.admission, CONTROLLER, Annotate(snap, c));
      if reply.Done? then Some(Commit(sl, sh).(p := PlacingIdle)) else Some(PlaceAgain(sl))
  }

  function SyncStep(k: Key, sl: Slice, env: Env): Option<Slice> {
    match sl.s
    case SyncingIdle =>
      if sl.sWaiting then Some(sl.(sWaiting := false, s := FetchingCapp)) else None
    case FetchingCapp =>
      if sl.sh.capp.None? then Some(sl.(s := SyncingIdle))
      else
        var c := sl.sh.capp.value;
        if c.deleting then
          if CLEANUP in c.finalizers then Some(sl.(s := FindingWork(c))) else Some(SyncAgain(sl))
        else if CLEANUP in c.finalizers then Some(sl.(s := Assembling(c)))
        else Some(sl.(s := AddingFinalizer(c)))
    case AddingFinalizer(snap) =>
      var (reply, sh) := UpdateCapp(sl.sh, env.admission, CONTROLLER, snap.(finalizers := snap.finalizers + {CLEANUP}));
      if reply.Done? then Some(Commit(sl, sh).(s := Assembling(snap))) else Some(SyncAgain(sl))
    case Assembling(snap) =>
      (match Assemble(k, snap, env.resources)
       case Ok(ms) => Some(sl.(s := LookingUpWork(snap, ms)))
       case Err => Some(SyncAgain(sl)))
    case LookingUpWork(snap, ms) =>
      (match GetWork(sl.sh, Placement(snap))
       case Some(w) => Some(sl.(s := UpdatingWork(snap, ms, w)))
       case None => Some(sl.(s := CreatingWork(snap, ms))))
    case CreatingWork(snap, ms) =>
      var (reply, sh) := CreateWork(sl.sh, Placement(snap), ms);
      if reply.Done? then Some(sl.(sh := sh, s := SyncingIdle)) else Some(SyncAgain(sl))
    case UpdatingWork(snap, ms, w) =>
      var (reply, sh) := UpdateWork(sl.sh, Placement(snap), w.(manifests := ms));
      if reply.Done? then Some(sl.(sh := sh, s := SyncingIdle)) else Some(SyncAgain(sl))
    case FindingWork(snap) =>
      if GetWork(sl.sh, snap.site).Some? then Some(sl.(s := DeletingWork(snap)))
      else Some(sl.(s := RemovingFinalizer(snap)))
    case DeletingWork(snap) =>
      var (reply, sh) := DeleteWork(sl.sh, snap.site);
      Some(SyncAgain(sl.(sh := sh)))
    case RemovingFinalizer(snap) =>
      var (reply, sh) := UpdateCapp(sl.sh, env.admission, CONTROLLER, snap.(finalizers := snap.finalizers - {CLEANUP}));
      Some(SyncAgain(Commit(sl, sh)))
  }

  /** The process restarts: local state and queues are lost, and every object is announced anew. */
  function Restart(sl: Slice): Slice {
    Slice(sl.sh, sl.sh.capp.Some? && PlacementAccepts(CappCreated(sl.sh.capp.value)), PlacingIdle,
          sl.sh.capp.Some? && SyncAccepts(CappCreated(sl.sh.capp.value)), SyncingIdle)
  }

  /** Users leave the placement annotation and the cleanup finalizer to the controllers. */
  predicate LeavesProtocol(act: Act, c: Capp)
    requires act.Edit?
  {
    && (HAS_PLACEMENT in act.annotations <==> HAS_PLACEMENT in c.annotations)
    && (HAS_PLACEMENT in act.annotations ==> act.annotations[HAS_PLACEMENT] == c.annotations[HAS_PLACEMENT])
    && (CLEANUP in act.finalizers <==> CLEANUP in c.finalizers)
  }

  /** The same call with a reply. */
  function Answered(act: Act): Act {
    match act
    case PlaceUnanswered(env) => Place(env)
    case SyncUnanswered(env) => Sync(env)
    case _ => act
  }

  /** One step of one key; none when the step is not possible. */
  function Step(k: Key, sl: Slice, act: Act): Option<Slice> {
    match act
    case Create(u, env, draft) =>
      if HAS_PLACEMENT in draft.annotations || CLEANUP in draft.finalizers then None
      else Some(Commit(sl, CreateCapp(sl.sh, env.admission, u, draft).1))
    case Edit(u, env, finalizers, labels, annotations, spec) =>
      if sl.sh.capp.None? || !LeavesProtocol(act, sl.sh.capp.value) then None
      else
        var req := sl.sh.capp.value.(finalizers := finalizers, labels := labels, annotations := annotations,
                                     spec := spec);
        Some(Commit(sl, UpdateCapp(sl.sh, env.admission, u, req).1))
    case Delete => Some(Commit(sl, DeleteCapp(sl.sh)))
    case Report(report) =>
      if sl.sh.capp.None? then None
      else Some(Commit(sl, UpdateStatus(sl.sh, sl.sh.capp.value.(report := report)).1))
    case Agent(cluster, finalizers, status) => Some(sl.(sh := AgentWrite(sl.sh, cluster, finalizers, status)))
    case Place(env) => PlaceStep(sl, env)
    case PlaceUnanswered(env) =>
      if sl.p == PlacingIdle || PlaceStep(sl, env).None? then None else Some(PlaceAgain(PlaceStep(sl, env).value))
    case PlaceFails => if sl.p == PlacingIdle then None else Some(PlaceAgain(sl))
    case Sync(env) => SyncStep(k, sl, env)
    case SyncUnanswered(env) =>
      if sl.s == SyncingIdle || SyncStep(k, sl, env).None? then None else Some(SyncAgain(SyncStep(k, sl, env).value))
    case SyncFails => if sl.s == SyncingIdle then None else Some(SyncAgain(sl))
    case Crash => Some(Restart(sl))
    case Tick(clock) => if clock < sl.sh.clock then None else Some(sl.(sh := sl.sh.(clock := clock)))
  }

  /** A lost reply leaves the store as the call made it, forgets the reconcile and queues the key again. */
  lemma UnansweredIs(k: Key, sl: Slice, act: Act, next: Slice) returns (done: Slice)
    requires Step(k, sl, act) == Some(next) && (act.PlaceUnanswered? || act.SyncUnanswered?)
    ensures Step(k, sl, Answered(act)) == Some(done) && done.sh == next.sh
    ensures next == if act.PlaceUnanswered? then PlaceAgain(done) else SyncAgain(done)
  {
    done := if act.PlaceUnanswered? then PlaceStep(sl, act.env).value else SyncStep(k, sl, act.env).value;
  }
}
