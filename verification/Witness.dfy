/** Three concrete runs without a crash or an error: one meets every assumption of the theorems and deploys a Capp, the
    others show what is lost when a status write moves a placed Capp. */
module Witness {
  import opened Objects
  import opened Names
  import opened Usernames
  import opened Decisions
  import opened Assembly
  import opened Admission
  import opened Shards
  import opened Protocol
  import opened Safety
  import opened Versions
  import opened Queues
  import opened Systems
  import opened Guarantees
  import opened Turns
  import opened Reconcilers

  /* ----- Paths ----- */

  /** What a path keeps to: nothing fails, references are steady, and resolutions are stable if a home is given. */
  datatype Care = Care(home: Option<Homes>, res: Resources)

  predicate Allowed(sl: Slice, act: Act, care: Care) {
    && !act.Crash? && !act.Tick? && !act.PlaceFails? && !act.SyncFails?
    && !act.PlaceUnanswered? && !act.SyncUnanswered? && SteadyAt(act, care.res)
    && (care.home.Some? ==> StableAt(sl, act, care.home.value))
  }

  predicate Path(k: Key, a: Slice, acts: seq<Act>, b: Slice, care: Care)
    decreases |acts|
  {
    if acts == [] then a == b
    else
      && Allowed(a, acts[0], care) && Step(k, a, acts[0]).Some?
      && Path(k, Step(k, a, acts[0]).value, acts[1..], b, care)
  }

  ghost predicate Reaches(k: Key, a: Slice, b: Slice, care: Care) {
    exists acts: seq<Act> :: Path(k, a, acts, b, care)
  }

  lemma {:induction false} PathGrows(k: Key, a: Slice, acts: seq<Act>, b: Slice, act: Act, c: Slice, care: Care)
    requires Path(k, a, acts, b, care) && Step(k, b, act) == Some(c) && Allowed(b, act, care)
    ensures Path(k, a, acts + [act], c, care)
    decreases |acts|
  {
    if acts == [] {
      assert (acts + [act])[1..] == [];
    } else {
      assert (acts + [act])[1..] == acts[1..] + [act];
      PathGrows(k, Step(k, a, acts[0]).value, acts[1..], b, act, c, care);
    }
  }

  lemma More(k: Key, a: Slice, b: Slice, act: Act, c: Slice, care: Care)
    requires Reaches(k, a, b, care) && Step(k, b, act) == Some(c) && Allowed(b, act, care)
    ensures Reaches(k, a, c, care)
  {
    var acts :| Path(k, a, acts, b, care);
    PathGrows(k, a, acts, b, act, c, care);
  }

  lemma MoreSync(k: Key, a: Slice, b: Slice, env: Env, c: Slice, care: Care)
    requires Reaches(k, a, b, care) && SyncStep(k, b, env) == Some(c) && env.resources == care.res
    ensures Reaches(k, a, c, care)
  {
    More(k, a, b, Sync(env), c, care);
  }

  lemma MorePlace(k: Key, a: Slice, b: Slice, env: Env, c: Slice, care: Care)
    requires Reaches(k, a, b, care) && PlaceStep(b, env) == Some(c)
    requires care.home.Some? && b.p.Choosing? ==> StableAt(b, Place(env), care.home.value)
    ensures Reaches(k, a, c, care)
  {
    More(k, a, b, Place(env), c, care);
  }

  lemma ReachesItself(k: Key, a: Slice, care: Care)
    ensures Reaches(k, a, a, care)
  {
    assert Path(k, a, [], a, care);
  }

  /* ----- A placement reconcile ----- */

  /** A waiting Capp that asks for another cluster than the recorded one is placed there. */
  lemma PlacePhase(k: Key, start: Slice, sl: Slice, env: Env, c: Capp, cluster: string, care: Care) returns (end: Slice)
    requires Reaches(k, start, sl, care)
    requires sl.pWaiting && sl.p == PlacingIdle && sl.sh.capp == Some(c) && Accepts(env, c.spec)
    requires c.spec.site == cluster != "" && cluster !in env.config.value.placements
    requires c.site != cluster && Placement(c) != cluster && (c.deleting ==> c.finalizers != {})
    requires care.home.Some? ==> care.home.value(c.uid) == cluster
    ensures Reaches(k, start, end, care)
    ensures end.sh.capp == Some(Annotate(c.(site := cluster), cluster).(version := sl.sh.clock + 2))
    ensures end.sh.works == sl.sh.works && end.sh.clock == sl.sh.clock + 2
    ensures end.p == PlacingIdle && end.s == sl.s && end.sWaiting && (!Placed(c) ==> end.pWaiting)
  {
    var s4 := ReadPhase(k, start, sl, env, c, cluster, care);
    end := WritePhase(k, start, s4, env, c, cluster, care);
  }

  lemma WritePhase(k: Key, start: Slice, sl: Slice, env: Env, c: Capp, cluster: string, care: Care) returns (end: Slice)
    requires Reaches(k, start, sl, care)
    requires sl.p.WritingStatus? && sl.p == WritingStatus(c, cluster, sl.p.origin) && sl.sh.capp == Some(c)
    requires Accepts(env, c.spec) && cluster != ""
    requires c.site != cluster && Placement(c) != cluster && (c.deleting ==> c.finalizers != {})
    ensures Reaches(k, start, end, care)
    ensures end.sh.capp == Some(Annotate(c.(site := cluster), cluster).(version := sl.sh.clock + 2))
    ensures end.sh.works == sl.sh.works && end.sh.clock == sl.sh.clock + 2
    ensures end.p == PlacingIdle && end.s == sl.s && end.sWaiting && (!Placed(c) ==> end.pWaiting)
  {
    var s1 := PlaceStatus(sl, env, c, cluster, sl.p.origin);
    var c1 := c.(site := cluster, version := sl.sh.clock + 1);
    MorePlace(k, start, sl, env, s1, care);
    end := PlaceAnnotation(s1, env, c1, cluster, sl.p.origin);
    MorePlace(k, start, s1, env, end, care);
  }

  lemma ReadPhase(k: Key, start: Slice, sl: Slice, env: Env, c: Capp, cluster: string, care: Care) returns (s4: Slice)
    requires Reaches(k, start, sl, care)
    requires sl.pWaiting && sl.p == PlacingIdle && sl.sh.capp == Some(c) && env.config.Some?
    requires c.spec.site == cluster != "" && cluster !in env.config.value.placements
    requires care.home.Some? ==> care.home.value(c.uid) == cluster
    ensures Reaches(k, start, s4, care)
    ensures s4.p.WritingStatus? && s4 == sl.(pWaiting := false, p := WritingStatus(c, cluster, s4.p.origin))
  {
    var s1, s2, s3, last := PlaceReads(sl, env, c, cluster);
    s4 := last;
    MorePlace(k, start, sl, env, s1, care);
    MorePlace(k, start, s1, env, s2, care);
    MorePlace(k, start, s2, env, s3, care);
    MorePlace(k, start, s3, env, s4, care);
  }

  lemma PlaceReads(sl: Slice, env: Env, c: Capp, cluster: string)
    returns (s1: Slice, s2: Slice, s3: Slice, s4: Slice)
    requires sl.pWaiting && sl.p == PlacingIdle && sl.sh.capp == Some(c) && env.config.Some?
    requires c.spec.site == cluster != "" && cluster !in env.config.value.placements
    ensures PlaceStep(sl, env) == Some(s1) && PlaceStep(s1, env) == Some(s2)
    ensures PlaceStep(s2, env) == Some(s3) && PlaceStep(s3, env) == Some(s4)
    ensures s1.p == ReadingConfig && s2.p.ReadingCapp? && s3.p == Choosing(env.config.value, c)
    ensures s4.p.WritingStatus? && s4 == sl.(pWaiting := false, p := WritingStatus(c, cluster, s4.p.origin))
  {
    var cfg := env.config.value;
    s1 := sl.(pWaiting := false, p := ReadingConfig);
    s2 := s1.(p := ReadingCapp(cfg));
    s3 := s2.(p := Choosing(cfg, c));
    s4 := s3.(p := WritingStatus(c, cluster, Origin(cfg, cluster, env.lookup)));
  }

  lemma PlaceStatus(sl: Slice, env: Env, c: Capp, cluster: string, origin: Origin) returns (next: Slice)
    requires sl.p == WritingStatus(c, cluster, origin) && sl.sh.capp == Some(c) && c.site != cluster
    requires c.deleting ==> c.finalizers != {}
    ensures var c1 := c.(site := cluster, version := sl.sh.clock + 1);
      && PlaceStep(sl, env) == Some(next) && next.p == WritingAnnotation(c1, cluster, origin)
      && next.sh == sl.sh.(capp := Some(c1), clock := sl.sh.clock + 1) && next.s == sl.s
    ensures !Placed(c) ==> next.pWaiting
  {
    var c1 := c.(site := cluster, version := sl.sh.clock + 1);
    var sh := sl.sh.(capp := Some(c1), clock := sl.sh.clock + 1);
    next := Commit(sl, sh).(p := WritingAnnotation(c1, cluster, origin));
  }

  lemma PlaceAnnotation(sl: Slice, env: Env, c: Capp, cluster: string, origin: Origin) returns (next: Slice)
    requires sl.p == WritingAnnotation(c, cluster, origin) && sl.sh.capp == Some(c) && Accepts(env, c.spec)
    requires cluster != "" && Placement(c) != cluster && (c.deleting ==> c.finalizers != {})
    ensures PlaceStep(sl, env) == Some(next) && next.p == PlacingIdle && next.s == sl.s && next.sWaiting
    ensures next.pWaiting == sl.pWaiting
    ensures next.sh
         == sl.sh.(capp := Some(Annotate(c, cluster).(version := sl.sh.clock + 1)), clock := sl.sh.clock + 1)
  {
    var req := Annotate(c, cluster);
    AcceptsAdmits(env, req);
    assert Placement(req) == cluster;
    var sh := sl.sh.(capp := Some(req.(version := sl.sh.clock + 1)), clock := sl.sh.clock + 1);
    assert UpdateCapp(sl.sh, env.admission, CONTROLLER, req).1 == sh;
    next := Commit(sl, sh).(p := PlacingIdle);
  }

  /** A waiting Capp that stands where it asks to be stays as it is. */
  lemma PlaceNothing(k: Key, start: Slice, sl: Slice, env: Env, c: Capp, cluster: string, care: Care)
    requires Reaches(k, start, sl, care)
    requires sl.pWaiting && sl.p == PlacingIdle && sl.sh.capp == Some(c) && Accepts(env, c.spec)
    requires c.spec.site == cluster != "" && cluster !in env.config.value.placements
    requires c.site == cluster == Placement(c)
    requires care.home.Some? ==> care.home.value(c.uid) == cluster
    ensures Reaches(k, start, sl.(pWaiting := false), care)
  {
    var s4 := ReadPhase(k, start, sl, env, c, cluster, care);
    var s5 := s4.(p := WritingAnnotation(c, cluster, s4.p.origin));
    assert c.(site := cluster) == c && Annotate(c, cluster) == c;
    MorePlace(k, start, s4, env, s5, care);
    AcceptsAdmits(env, c);
    assert UpdateCapp(s5.sh, env.admission, CONTROLLER, c) == (Done(c), s5.sh);
    MorePlace(k, start, s5, env, sl.(pWaiting := false), care);
  }

  /* ----- A sync reconcile ----- */

  /** A waiting live Capp without the finalizer gets it. */
  lemma FinalizePhase(k: Key, start: Slice, sl: Slice, env: Env, c: Capp, care: Care) returns (s3: Slice)
    requires Reaches(k, start, sl, care) && env.resources == care.res
    requires sl.sWaiting && sl.s == SyncingIdle && sl.sh.capp == Some(c) && Accepts(env, c.spec)
    requires !c.deleting && CLEANUP !in c.finalizers && Placed(c)
    ensures Reaches(k, start, s3, care) && s3.s == Assembling(c)
    ensures s3.sh.capp == Some(c.(finalizers := c.finalizers + {CLEANUP}, version := sl.sh.clock + 1))
    ensures s3.sh.works == sl.sh.works && s3.p == sl.p && s3.pWaiting == sl.pWaiting && s3.sWaiting
  {
    var s1 := sl.(sWaiting := false, s := FetchingCapp);
    var s2 := s1.(s := AddingFinalizer(c));
    s3 := SyncFinalizes(k, s2, env, c);
    MoreSync(k, start, sl, env, s1, care);
    MoreSync(k, start, s1, env, s2, care);
    MoreSync(k, start, s2, env, s3, care);
  }

  lemma SyncFinalizes(k: Key, s2: Slice, env: Env, c: Capp) returns (s3: Slice)
    requires s2.s == AddingFinalizer(c) && s2.sh.capp == Some(c) && Accepts(env, c.spec)
    requires !c.deleting && CLEANUP !in c.finalizers
    ensures SyncStep(k, s2, env) == Some(s3) && s3.s == Assembling(c) && s3.p == s2.p
    ensures s3.sh.capp == Some(c.(finalizers := c.finalizers + {CLEANUP}, version := s2.sh.clock + 1))
    ensures s3.sh.works == s2.sh.works && (Placed(c) ==> s3.pWaiting == s2.pWaiting && s3.sWaiting)
  {
    var c3 := c.(finalizers := c.finalizers + {CLEANUP});
    AcceptsAdmits(env, c3);
    var sh3 := s2.sh.(capp := Some(c3.(version := s2.sh.clock + 1)), clock := s2.sh.clock + 1);
    assert UpdateCapp(s2.sh, env.admission, CONTROLLER, c3).1 == sh3;
    s3 := Commit(s2, sh3).(s := Assembling(c));
  }

  /** A waiting live Capp under the finalizer is fetched. */
  lemma FetchPhase(k: Key, start: Slice, sl: Slice, env: Env, c: Capp, care: Care)
    requires Reaches(k, start, sl, care) && env.resources == care.res
    requires sl.sWaiting && sl.s == SyncingIdle && sl.sh.capp == Some(c) && !c.deleting && CLEANUP in c.finalizers
    ensures Reaches(k, start, sl.(sWaiting := false, s := Assembling(c)), care)
  {
    var s1 := sl.(sWaiting := false, s := FetchingCapp);
    MoreSync(k, start, sl, env, s1, care);
    MoreSync(k, start, s1, env, s1.(s := Assembling(c)), care);
  }

  lemma LookupPhase(k: Key, start: Slice, sl: Slice, env: Env, c: Capp, care: Care) returns (ms: seq<Manifest>)
    requires Reaches(k, start, sl, care) && env.resources == care.res
    requires sl.s == Assembling(c) && Assemble(k, c, env.resources).Ok?
    ensures Reaches(k, start, sl.(s := LookingUpWork(c, ms)), care) && Assemble(k, c, env.resources) == Ok(ms)
  {
    ms := Assemble(k, c, env.resources).value;
    MoreSync(k, start, sl, env, sl.(s := LookingUpWork(c, ms)), care);
  }

  lemma CreatePhase(k: Key, start: Slice, sl: Slice, env: Env, c: Capp, care: Care) returns (end: Slice)
    requires Reaches(k, start, sl, care) && env.resources == care.res
    requires sl.s == Assembling(c) && Placed(c) && sl.sh.works == map[] && Assemble(k, c, env.resources).Ok?
    ensures Reaches(k, start, end, care) && end == sl.(sh := end.sh, s := SyncingIdle)
    ensures end.sh.capp == sl.sh.capp && end.sh.works.Keys == {Placement(c)}
    ensures !end.sh.works[Placement(c)].deleting
  {
    var ms := LookupPhase(k, start, sl, env, c, care);
    var s1, s2 := sl.(s := LookingUpWork(c, ms)), sl.(s := CreatingWork(c, ms));
    MoreSync(k, start, s1, env, s2, care);
    end := CreateStep(k, s2, env);
    MoreSync(k, start, s2, env, end, care);
  }

  lemma CreateStep(k: Key, sl: Slice, env: Env) returns (end: Slice)
    requires sl.s.CreatingWork? && Placed(sl.s.snap) && sl.sh.works == map[]
    ensures SyncStep(k, sl, env) == Some(end) && end == sl.(sh := end.sh, s := SyncingIdle)
    ensures end.sh.capp == sl.sh.capp && end.sh.works.Keys == {Placement(sl.s.snap)}
    ensures !end.sh.works[Placement(sl.s.snap)].deleting
  {
    end := sl.(sh := CreateWork(sl.sh, Placement(sl.s.snap), sl.s.manifests).1, s := SyncingIdle);
  }

  lemma UpdatePhase(k: Key, start: Slice, sl: Slice, env: Env, c: Capp, care: Care) returns (end: Slice)
    requires Reaches(k, start, sl, care) && env.resources == care.res
    requires sl.s == Assembling(c) && Placement(c) in sl.sh.works && Assemble(k, c, env.resources).Ok?
    requires sl.sh.works[Placement(c)].finalizers != {}
    ensures Reaches(k, start, end, care) && end == sl.(sh := end.sh, s := SyncingIdle)
    ensures end.sh.capp == sl.sh.capp && SameFate(sl.sh, end.sh, Placement(c))
  {
    var ms := LookupPhase(k, start, sl, env, c, care);
    var w := sl.sh.works[Placement(c)];
    var s1, s2 := sl.(s := LookingUpWork(c, ms)), sl.(s := UpdatingWork(c, ms, w));
    MoreSync(k, start, s1, env, s2, care);
    end := UpdateStep(k, s2, env);
    MoreSync(k, start, s2, env, end, care);
  }

  /** The same entries stand, and the one of this cluster is as far from deletion as before. */
  predicate SameFate(a: Shard, b: Shard, cluster: string) {
    && b.works.Keys == a.works.Keys && cluster in a.works
    && b.works[cluster].deleting == a.works[cluster].deleting
    && b.works[cluster].finalizers == a.works[cluster].finalizers
  }

  lemma UpdateStep(k: Key, sl: Slice, env: Env) returns (end: Slice)
    requires sl.s.UpdatingWork? && GetWork(sl.sh, Placement(sl.s.snap)) == Some(sl.s.work) && sl.s.work.finalizers != {}
    ensures SyncStep(k, sl, env) == Some(end) && end == sl.(sh := end.sh, s := SyncingIdle)
    ensures end.sh.capp == sl.sh.capp && SameFate(sl.sh, end.sh, Placement(sl.s.snap))
  {
    end := sl.(sh := PutWork(sl.sh, Placement(sl.s.snap), sl.s.work.(manifests := sl.s.manifests)), s := SyncingIdle);
  }

  /** A waiting deleted Capp is released when its recorded cluster holds no ManifestWork. */
  lemma ReleasePhase(k: Key, start: Slice, sl: Slice, env: Env, c: Capp, care: Care) returns (end: Slice)
    requires Reaches(k, start, sl, care) && env.resources == care.res
    requires sl.sWaiting && sl.s == SyncingIdle && sl.sh.capp == Some(c) && Accepts(env, c.spec)
    requires c.deleting && c.finalizers == {CLEANUP} && c.site !in sl.sh.works
    ensures Reaches(k, start, end, care) && end.p == sl.p && end.s == SyncingIdle
    ensures end.sh.capp.None? && end.sh.works == sl.sh.works
  {
    var s1 := sl.(sWaiting := false, s := FetchingCapp);
    var s2, s3 := s1.(s := FindingWork(c)), s1.(s := RemovingFinalizer(c));
    var req := c.(finalizers := c.finalizers - {CLEANUP});
    AcceptsAdmits(env, req);
    var sh4 := sl.sh.(capp := None, clock := sl.sh.clock + 1);
    assert req.finalizers == {} && UpdateCapp(sl.sh, env.admission, CONTROLLER, req).1 == sh4;
    end := SyncAgain(Commit(s3, sh4));
    MoreSync(k, start, sl, env, s1, care);
    MoreSync(k, start, s1, env, s2, care);
    MoreSync(k, start, s2, env, s3, care);
    MoreSync(k, start, s3, env, end, care);
  }

  /** A waiting deleted Capp whose ManifestWork has finalizers marks it for deletion. */
  lemma MarkPhase(k: Key, start: Slice, sl: Slice, env: Env, c: Capp, care: Care) returns (end: Slice)
    requires Reaches(k, start, sl, care) && env.resources == care.res
    requires sl.sWaiting && sl.s == SyncingIdle && sl.sh.capp == Some(c) && c.deleting && CLEANUP in c.finalizers
    requires c.site in sl.sh.works && sl.sh.works[c.site].finalizers != {}
    ensures Reaches(k, start, end, care) && end == sl.(sh := end.sh)
    ensures end.sh.capp == sl.sh.capp && end.sh.works.Keys == sl.sh.works.Keys
    ensures end.sh.works[c.site].deleting && end.sh.works[c.site].finalizers == sl.sh.works[c.site].finalizers
  {
    var s1 := sl.(sWaiting := false, s := FetchingCapp);
    var s2, s3 := s1.(s := FindingWork(c)), s1.(s := DeletingWork(c));
    end := sl.(sh := DeleteWork(sl.sh, c.site).1);
    MoreSync(k, start, sl, env, s1, care);
    MoreSync(k, start, s1, env, s2, care);
    MoreSync(k, start, s2, env, s3, care);
    MoreSync(k, start, s3, env, end, care);
  }

  /* ----- A world with two clusters ----- */

  const CONFIG := RcsConfig("", [], map[], map[], [])
  const WORLD := Env(Some(CONFIG), Lookup({}, map[]), Resources(map[], map[], Ok(map[])),
                     AdmissionEnv(Some(CONFIG), ["east", "west"], {}, {}, "", map[]))
  const EMPTY := Slice(Shard(None, map[], 0), false, PlacingIdle, false, SyncingIdle)

  function Asking(site: string): CappSpec {
    CappSpec(site, [], [], [], "", EMPTY_LOG_SPEC)
  }

  lemma WorldAccepts(site: string)
    requires site == "east" || site == "west"
    ensures Accepts(WORLD, Asking(site))
  {
    assert WORLD.admission.clusters[0] == "east" && WORLD.admission.clusters[1] == "west";
  }

  lemma TwoClusters()
    ensures "east" != "west" && Asking("east") != Asking("west")
  {
    assert "east"[0] != "west"[0];
  }

  /* ----- What users and agents do in it ----- */

  lemma UserCreates(k: Key, start: Slice, sl: Slice, user: string, care: Care) returns (end: Slice)
    requires Reaches(k, start, sl, care) && sl.sh.capp.None?
    ensures Reaches(k, start, end, care) && end == sl.(sh := end.sh, pWaiting := true)
    ensures end.sh.works == sl.sh.works && end.sh.capp.Some?
    ensures var c := end.sh.capp.value;
      && c.uid == sl.sh.clock + 1 && !c.deleting && c.finalizers == {} && c.spec == Asking("east")
      && c.site == "" && !Placed(c)
  {
    WorldAccepts("east");
    var act := Create(user, WORLD, Capp(0, 0, false, {}, map[], map[], Asking("east"), "", ""));
    end := Step(k, sl, act).value;
    More(k, start, sl, act, end, care);
  }

  lemma MoveIsStored(sh: Shard, user: string, was: Capp)
    requires sh.capp == Some(was) && was.spec == Asking("east") && (was.deleting ==> was.finalizers != {})
    ensures var b := UpdateCapp(sh, WORLD.admission, user, was.(spec := Asking("west"))).1;
      && b.works == sh.works && b.capp.Some?
      && var c := b.capp.value;
      && c.deleting == was.deleting && c.finalizers == was.finalizers && c.spec == Asking("west")
      && c.site == was.site && Placement(c) == Placement(was)
  {
    WorldAccepts("west");
    TwoClusters();
  }

  lemma UserMoves(k: Key, start: Slice, sl: Slice, user: string, care: Care) returns (end: Slice)
    requires Reaches(k, start, sl, care) && sl.sh.capp.Some? && sl.sh.capp.value.spec == Asking("east")
    requires sl.sh.capp.value.deleting ==> sl.sh.capp.value.finalizers != {}
    requires sl.pWaiting
    ensures Reaches(k, start, end, care) && end == sl.(sh := end.sh, sWaiting := end.sWaiting)
    ensures (sl.sWaiting ==> end.sWaiting) && end.sh.works == sl.sh.works && end.sh.capp.Some?
    ensures var c, was := end.sh.capp.value, sl.sh.capp.value;
      && c.deleting == was.deleting && c.finalizers == was.finalizers && c.spec == Asking("west")
      && c.site == was.site && Placement(c) == Placement(was)
  {
    WorldAccepts("west");
    TwoClusters();
    var c := sl.sh.capp.value;
    var act := Edit(user, WORLD, c.finalizers, c.labels, c.annotations, Asking("west"));
    var req := c.(spec := Asking("west"));
    MoveIsStored(sl.sh, user, c);
    CommitShard(sl, UpdateCapp(sl.sh, WORLD.admission, user, req).1);
    end := Commit(sl, UpdateCapp(sl.sh, WORLD.admission, user, req).1);
    assert Step(k, sl, act) == Some(end);
    More(k, start, sl, act, end, care);
  }

  lemma UserDeletes(k: Key, start: Slice, sl: Slice, care: Care) returns (end: Slice)
    requires Reaches(k, start, sl, care)
    requires sl.sh.capp.Some? && !sl.sh.capp.value.deleting && sl.sh.capp.value.finalizers != {}
    requires Placed(sl.sh.capp.value)
    ensures Reaches(k, start, end, care) && end == sl.(sh := end.sh, sWaiting := true) && end.sh.works == sl.sh.works
    ensures end.sh.capp == Some(sl.sh.capp.value.(deleting := true, version := sl.sh.clock + 1))
  {
    end := Step(k, sl, Delete).value;
    More(k, start, sl, Delete, end, care);
  }

  lemma AgentHolds(k: Key, start: Slice, sl: Slice, cluster: string, care: Care) returns (end: Slice)
    requires Reaches(k, start, sl, care) && cluster in sl.sh.works && !sl.sh.works[cluster].deleting
    ensures Reaches(k, start, end, care) && end == sl.(sh := end.sh)
    ensures end.sh.capp == sl.sh.capp && end.sh.works.Keys == sl.sh.works.Keys
    ensures end.sh.works[cluster].finalizers != {}
  {
    var act := Agent(cluster, {"agent"}, "");
    end := Step(k, sl, act).value;
    assert "agent" in end.sh.works[cluster].finalizers;
    More(k, start, sl, act, end, care);
  }

  lemma AgentLetsGo(k: Key, start: Slice, sl: Slice, cluster: string, care: Care) returns (end: Slice)
    requires Reaches(k, start, sl, care) && sl.sh.works.Keys == {cluster}
    requires sl.sh.works[cluster].deleting && sl.sh.works[cluster].finalizers != {}
    ensures Reaches(k, start, end, care) && end == sl.(sh := end.sh)
    ensures end.sh.capp == sl.sh.capp && end.sh.works == map[]
  {
    var act := Agent(cluster, {}, "");
    end := Step(k, sl, act).value;
    assert end.sh.works.Keys == {};
    More(k, start, sl, act, end, care);
  }

  /* ----- The runs ----- */

  /** The user asks for one cluster, and the Capp is placed and deployed there. */
  lemma Deploys(k: Key, user: string, care: Care) returns (end: Slice)
    requires care.res == WORLD.resources && (care.home.Some? ==> care.home.value(1) == "east")
    ensures Reaches(k, EMPTY, end, care)
    ensures end.sh.works.Keys == {"east"} && !end.sh.works["east"].deleting
    ensures end.p == PlacingIdle && end.s == SyncingIdle && end.pWaiting
    ensures end.sh.capp.Some? && !end.sh.capp.value.deleting && end.sh.capp.value.finalizers == {CLEANUP}
    ensures end.sh.capp.value.spec == Asking("east") && end.sh.capp.value.site == "east" == Placement(end.sh.capp.value)
  {
    WorldAccepts("east");
    ReachesItself(k, EMPTY, care);
    var s1 := UserCreates(k, EMPTY, EMPTY, user, care);
    var s2 := PlacePhase(k, EMPTY, s1, WORLD, s1.sh.capp.value, "east", care);
    var s3 := FinalizePhase(k, EMPTY, s2, WORLD, s2.sh.capp.value, care);
    end := CreatePhase(k, EMPTY, s3, WORLD, s2.sh.capp.value, care);
  }

  const UNSTABLE := Care(None, WORLD.resources)

  /** The user asks for another cluster before the placement controller has handled the event of its own status write.
      The Capp moves, its ManifestWork does not, and deletion looks only where the Capp has moved to. */
  lemma UnstableResolutionOrphans(k: Key, user: string) returns (end: Slice)
    ensures Reaches(k, EMPTY, end, UNSTABLE)
    ensures end.sh.capp.None? && end.sh.works.Keys == {"east"} && !Guarded(end.sh)
  {
    WorldAccepts("west");
    TwoClusters();
    var s1 := Deploys(k, user, UNSTABLE);
    var s2 := UserMoves(k, EMPTY, s1, user, UNSTABLE);
    var s3 := PlacePhase(k, EMPTY, s2, WORLD, s2.sh.capp.value, "west", UNSTABLE);
    var s4 := UserDeletes(k, EMPTY, s3, UNSTABLE);
    end := ReleasePhase(k, EMPTY, s4, WORLD, s4.sh.capp.value, UNSTABLE);
  }

  /** The same, but the ManifestWork was being deleted when the Capp moved away from it and was released. */
  lemma LeavesDeletedWork(k: Key, user: string) returns (end: Slice)
    ensures Reaches(k, EMPTY, end, UNSTABLE)
    ensures end.sh.capp.None? && end.p == PlacingIdle && end.s == SyncingIdle
    ensures end.sh.works.Keys == {"east"} && end.sh.works["east"].deleting && end.sh.works["east"].finalizers != {}
  {
    WorldAccepts("west");
    TwoClusters();
    var s1 := Deploys(k, user, UNSTABLE);
    var s2 := AgentHolds(k, EMPTY, s1, "east", UNSTABLE);
    var s3 := UserDeletes(k, EMPTY, s2, UNSTABLE);
    var s4 := MarkPhase(k, EMPTY, s3, WORLD, s3.sh.capp.value, UNSTABLE);
    var s5 := UserMoves(k, EMPTY, s4, user, UNSTABLE);
    var s6 := PlacePhase(k, EMPTY, s5, WORLD, s5.sh.capp.value, "west", UNSTABLE);
    end := ReleasePhase(k, EMPTY, s6, WORLD, s6.sh.capp.value, UNSTABLE);
  }

  /** A Capp of the same name adopts that ManifestWork and counts as synced. */
  lemma AdoptsDeletedWork(k: Key, user: string) returns (end: Slice)
    ensures Reaches(k, EMPTY, end, UNSTABLE) && Idles(end)
    ensures end.sh.works.Keys == {"east"} && end.sh.works["east"].deleting && end.sh.works["east"].finalizers != {}
  {
    WorldAccepts("east");
    var s1 := LeavesDeletedWork(k, user);
    var s2 := UserCreates(k, EMPTY, s1, user, UNSTABLE);
    var s3 := PlacePhase(k, EMPTY, s2, WORLD, s2.sh.capp.value, "east", UNSTABLE);
    var s4 := FinalizePhase(k, EMPTY, s3, WORLD, s3.sh.capp.value, UNSTABLE);
    var s5 := UpdatePhase(k, EMPTY, s4, WORLD, s3.sh.capp.value, UNSTABLE);
    end := SettlePhase(k, EMPTY, s5, s5.sh.capp.value, UNSTABLE);
  }

  /** Nobody waits and nothing runs, and the Capp is placed and alive. */
  predicate Idles(sl: Slice) {
    && !sl.pWaiting && sl.p == PlacingIdle && !sl.sWaiting && sl.s == SyncingIdle
    && sl.sh.capp.Some? && Placed(sl.sh.capp.value) && !sl.sh.capp.value.deleting
  }

  /** Both controllers handle what still waits. */
  lemma SettlePhase(k: Key, start: Slice, sl: Slice, c: Capp, care: Care) returns (end: Slice)
    requires Reaches(k, start, sl, care) && care == UNSTABLE
    requires sl.sh.capp == Some(c) && c.spec == Asking("east") && c.site == "east" == Placement(c)
    requires !c.deleting && CLEANUP in c.finalizers
    requires sl.sWaiting && sl.s == SyncingIdle && sl.pWaiting && sl.p == PlacingIdle
    requires "east" in sl.sh.works && sl.sh.works["east"].finalizers != {}
    ensures Reaches(k, start, end, care) && Idles(end) && end.sh.capp == sl.sh.capp && SameFate(sl.sh, end.sh, "east")
  {
    WorldAccepts("east");
    FetchPhase(k, start, sl, WORLD, c, care);
    var s1 := UpdatePhase(k, start, sl.(sWaiting := false, s := Assembling(c)), WORLD, c, care);
    PlaceNothing(k, start, s1, WORLD, c, "east", care);
    end := s1.(pWaiting := false);
  }

  /** Then the agent finishes the deletion, which nobody is told: the Capp is left without its ManifestWork, and no
      controller has anything to do. */
  lemma AdoptedWorkIsLost(k: Key, user: string) returns (end: Slice)
    ensures Reaches(k, EMPTY, end, UNSTABLE) && Idles(end) && end.sh.works == map[]
    ensures !LivePending(k, end, WORLD.resources)
  {
    var s1 := AdoptsDeletedWork(k, user);
    end := AgentLetsGo(k, EMPTY, s1, "east", UNSTABLE);
  }

  /* ----- The first run, in the whole system ----- */

  /** Each state is related to the next by the action between them. */
  predicate Chain<S, A>(states: seq<S>, actions: seq<A>, link: (S, A, S) -> bool) {
    && |states| == |actions| + 1
    && forall i :: 0 <= i < |actions| ==> link(states[i], actions[i], states[i + 1])
  }

  lemma ChainGrows<S, A>(s: S, a: A, states: seq<S>, actions: seq<A>, link: (S, A, S) -> bool)
    requires Chain(states, actions, link) && link(s, a, states[0])
    ensures Chain([s] + states, [a] + actions, link)
  {
    var ss, aa := [s] + states, [a] + actions;
    forall i | 0 <= i < |aa|
      ensures link(ss[i], aa[i], ss[i + 1])
    {
      if i > 0 {
        assert ss[i] == states[i - 1] && ss[i + 1] == states[i] && aa[i] == actions[i - 1];
      }
    }
  }

  predicate AllowedAction(k: Key, sys: System, action: Action, next: System, care: Care) {
    && action.At? && action.key == k && Next(sys, action) == Some(next) && Allowed(SliceOf(sys, k), action.act, care)
  }

  lemma {:induction false} PathLifts(k: Key, sys: System, acts: seq<Act>, end: Slice, care: Care,
                                     link: (System, Action, System) -> bool)
    returns (states: seq<System>, actions: seq<Action>)
    requires Path(k, SliceOf(sys, k), acts, end, care)
    requires forall s, a, t :: AllowedAction(k, s, a, t, care) ==> link(s, a, t)
    ensures Chain(states, actions, link) && states[0] == sys && SliceOf(states[|actions|], k) == end
    decreases |acts|
  {
    if acts == [] {
      states, actions := [sys], [];
    } else {
      var first := AllowedStepLifts(k, sys, acts[0], care);
      var later, rest := PathLifts(k, first, acts[1..], end, care, link);
      ChainGrows(sys, At(k, acts[0]), later, rest, link);
      states, actions := [sys] + later, [At(k, acts[0])] + rest;
      assert states[|actions|] == later[|rest|];
    }
  }

  lemma AllowedStepLifts(k: Key, sys: System, act: Act, care: Care) returns (next: System)
    requires Step(k, SliceOf(sys, k), act).Some? && Allowed(SliceOf(sys, k), act, care)
    ensures AllowedAction(k, sys, At(k, act), next, care)
    ensures Step(k, SliceOf(sys, k), act) == Some(SliceOf(next, k))
  {
    next := StepLifts(sys, k, act);
  }

  lemma ChainIsRun(k: Key, states: seq<System>, actions: seq<Action>, link: (System, Action, System) -> bool)
    requires Chain(states, actions, link) && Initial(states[0])
    requires forall s, a, t :: link(s, a, t) ==> a.At? && a.key == k && Next(s, a) == Some(t)
    ensures IsRun({k}, states, actions)
  {
    forall i | 0 <= i < |actions|
      ensures (actions[i].At? ==> actions[i].key in {k}) && Next(states[i], actions[i]) == Some(states[i + 1])
    {
      assert link(states[i], actions[i], states[i + 1]);
    }
  }

  lemma ChainIsAllowed(k: Key, states: seq<System>, actions: seq<Action>, home: Homes, res: Resources,
                       link: (System, Action, System) -> bool)
    requires Chain(states, actions, link)
    requires forall s, a, t :: link(s, a, t) ==> AllowedAction(k, s, a, t, Care(Some(home), res))
    ensures StableRun(states, actions, home) && SteadyRun(actions, res)
  {
    forall i | 0 <= i < |actions|
      ensures actions[i].At? && StableAt(SliceOf(states[i], actions[i].key), actions[i].act, home)
      ensures SteadyAt(actions[i].act, res)
    {
      assert link(states[i], actions[i], states[i + 1]);
    }
  }

  lemma ReachedByRun(k: Key, sys: System, end: Slice, home: Homes, res: Resources)
    returns (states: seq<System>, actions: seq<Action>)
    requires Reaches(k, SliceOf(sys, k), end, Care(Some(home), res)) && Initial(sys)
    ensures IsRun({k}, states, actions) && StableRun(states, actions, home) && SteadyRun(actions, res)
    ensures SliceOf(states[|actions|], k) == end
  {
    var care := Care(Some(home), res);
    var link := (s, a, t) => AllowedAction(k, s, a, t, care);
    var acts :| Path(k, SliceOf(sys, k), acts, end, care);
    states, actions := PathLifts(k, sys, acts, end, care, link);
    ChainIsRun(k, states, actions, link);
    ChainIsAllowed(k, states, actions, home, res, link);
  }

  lemma EmptySystem(k: Key) returns (sys: System)
    ensures Initial(sys) && SliceOf(sys, k) == EMPTY
  {
    sys := System(Store(map[], map[], 0), {}, map[], {}, map[]);
    assert Named(sys.store.works, WorkName(k)) == map[];
  }

  lemma SliceWorkStands(sys: System, k: Key, cluster: string)
    requires cluster in SliceOf(sys, k).sh.works
    ensures WorkKey(cluster, WorkName(k)) in sys.store.works
  {
    InNamed(sys.store.works, WorkName(k), cluster);
  }

  lemma DeploysAtHome(k: Key, user: string, home: Homes) returns (end: Slice)
    requires home(1) == "east"
    ensures Reaches(k, EMPTY, end, Care(Some(home), WORLD.resources)) && "east" in end.sh.works
  {
    end := Deploys(k, user, Care(Some(home), WORLD.resources));
  }

  lemma OneKey(k: Key)
    ensures NoCollision({k})
  {
  }

  /** The theorems' assumptions can be met together, by a run at whose end a ManifestWork stands. */
  lemma AssumptionsAreMet(k: Key, user: string)
    returns (states: seq<System>, actions: seq<Action>, home: Homes)
    ensures IsRun({k}, states, actions) && NoCollision({k})
    ensures StableRun(states, actions, home) && KeepsRun(states, actions)
    ensures NeverAdopts(states, actions) && SteadyRun(actions, WORLD.resources)
    ensures WorkKey("east", WorkName(k)) in states[|actions|].store.works
  {
    home := _ => "east";
    var sys := EmptySystem(k);
    var end := DeploysAtHome(k, user, home);
    states, actions := ReachedByRun(k, sys, end, home, WORLD.resources);
    OneKey(k);
    StableRunKeeps({k}, states, actions, home);
    KeepsNeverAdopts({k}, states, actions);
    SliceWorkStands(states[|actions|], k, "east");
  }
}
