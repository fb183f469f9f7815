/** What the webhooks guarantee over whole histories of user and controller writes. */
module Histories {
  import opened Objects
  import opened Names
  import opened Usernames
  import opened Admission
  import opened Shards
  import opened Protocol
  import opened Versions
  import opened Systems
  import opened Guarantees

  /* ----- Which writes passed the webhooks ----- */

  function EditOf(sl: Slice, act: Act): Capp
    requires act.Edit? && sl.sh.capp.Some?
  {
    sl.sh.capp.value.(finalizers := act.finalizers, labels := act.labels,
                      annotations := act.annotations, spec := act.spec)
  }

  function FinalizerEdit(s: Syncing): Capp
    requires s.AddingFinalizer? || s.RemovingFinalizer?
  {
    s.snap.(finalizers := if s.AddingFinalizer? then s.snap.finalizers + {CLEANUP} else s.snap.finalizers - {CLEANUP})
  }

  /** The main-resource write that succeeds in this step, if any: who made it, and what the webhooks saw. */
  function WriteOf(sl: Slice, act: Act): Option<(string, AdmissionEnv)> {
    match Answered(act)
    case Create(u, env, draft) =>
      if CreateCapp(sl.sh, env.admission, u, draft).0.Done? then Some((u, env.admission)) else None
    case Edit(u, env, _, _, _, _) =>
      if sl.sh.capp.Some? && UpdateCapp(sl.sh, env.admission, u, EditOf(sl, act)).0.Done?
      then Some((u, env.admission)) else None
    case Place(env) => if Commits(sl, Place(env)) then Some((CONTROLLER, env.admission)) else None
    case Sync(env) =>
      if (sl.s.AddingFinalizer? || sl.s.RemovingFinalizer?)
         && UpdateCapp(sl.sh, env.admission, CONTROLLER, FinalizerEdit(sl.s)).0.Done?
      then Some((CONTROLLER, env.admission)) else None
    case _ => None
  }

  function UpdatedBy(c: Capp): Option<string> {
    if LAST_UPDATED_BY in c.annotations then Some(c.annotations[LAST_UPDATED_BY]) else None
  }

  function HostnameOf(sh: Shard): string {
    if sh.capp.Some? then sh.capp.value.spec.hostname else ""
  }

  ghost predicate HostnamePassed(env: AdmissionEnv, host: string) {
    env.config.Some? && HostnameOk(env, host, env.config.value.invalidHostnamePatterns)
  }

  /** What a successful main-resource write did: `before` is what the writer sent for the annotation. */
  ghost predicate WrittenBy(sl: Slice, next: Slice, user: string, env: AdmissionEnv, before: Option<string>) {
    next.sh.capp.Some? ==>
      var c := next.sh.capp.value;
      && UpdatedBy(c) == (if Excluded(user) then before else Some(user))
      && SiteOk(env, c.spec.site)
      && (c.spec.hostname != HostnameOf(sl.sh) ==>
            HostnamePassed(env, c.spec.hostname))
  }

  /** What a writer sends for the last-updated-by annotation. */
  function Sent(sl: Slice, act: Act): Option<string>
    requires act.Create? || (sl.sh.capp.Some? && !act.Create?)
  {
    match act
    case Create(_, _, draft) => UpdatedBy(draft)
    case Edit(_, _, _, _, _, _) => UpdatedBy(EditOf(sl, act))
    case _ => UpdatedBy(sl.sh.capp.value)
  }

  lemma UpdateWrites(sl: Slice, env: AdmissionEnv, user: string, req: Capp, next: Slice)
    requires UpdateCapp(sl.sh, env, user, req).0.Done? && next.sh == UpdateCapp(sl.sh, env, user, req).1
    ensures sl.sh.capp.Some? && WrittenBy(sl, next, user, env, UpdatedBy(req))
  {
    var cur := sl.sh.capp.value;
    var admitted := Admit(env, user, cur.spec.hostname,
                          cur.(finalizers := req.finalizers, labels := req.labels,
                               annotations := req.annotations, spec := req.spec)).value;
    NoHostErrors(env, admitted.spec.hostname, env.config.value.invalidHostnamePatterns);
  }

  lemma CreateWrites(sl: Slice, env: AdmissionEnv, user: string, draft: Capp, next: Slice)
    requires CreateCapp(sl.sh, env, user, draft).0.Done? && next.sh == CreateCapp(sl.sh, env, user, draft).1
    ensures WrittenBy(sl, next, user, env, UpdatedBy(draft))
  {
    NoHostErrors(env, next.sh.capp.value.spec.hostname, env.config.value.invalidHostnamePatterns);
  }

  lemma ControllerWrites(k: Key, sl: Slice, act: Act, next: Slice)
    requires VersionInv(sl) && Step(k, sl, act) == Some(next) && WriteOf(sl, act).Some?
    requires act.Place? || act.Sync?
    ensures sl.sh.capp.Some?
    ensures WrittenBy(sl, next, CONTROLLER, act.env.admission, UpdatedBy(sl.sh.capp.value))
  {
    KeysDiffer();
    if act.Place? {
      var req := Annotate(sl.p.snap, sl.p.cluster);
      UpdateWrites(sl, act.env.admission, CONTROLLER, req, next);
      assert sl.sh.capp.value == sl.p.snap && UpdatedBy(req) == UpdatedBy(sl.p.snap);
    } else {
      UpdateWrites(sl, act.env.admission, CONTROLLER, FinalizerEdit(sl.s), next);
      assert sl.sh.capp.value == sl.s.snap;
    }
  }

  lemma AnsweredWritesAre(k: Key, sl: Slice, act: Act, next: Slice)
    requires VersionInv(sl) && Step(k, sl, act) == Some(next) && WriteOf(sl, act).Some? && Answered(act) == act
    ensures act.Create? || sl.sh.capp.Some?
    ensures var (user, env) := WriteOf(sl, act).value;
      WrittenBy(sl, next, user, env, Sent(sl, act))
  {
    match act
    case Create(u, env, draft) => CreateWrites(sl, env.admission, u, draft, next);
    case Edit(u, env, _, _, _, _) => UpdateWrites(sl, env.admission, u, EditOf(sl, act), next);
    case _ => ControllerWrites(k, sl, act, next);
  }

  /** A write stores what the webhooks let through. The controllers write back the annotation that is stored, since
      their snapshot carries the stored version. */
  lemma WritesAre(k: Key, sl: Slice, act: Act, next: Slice)
    requires VersionInv(sl) && Step(k, sl, act) == Some(next) && WriteOf(sl, act).Some?
    ensures act.Create? || sl.sh.capp.Some?
    ensures var (user, env) := WriteOf(sl, act).value;
      WrittenBy(sl, next, user, env, Sent(sl, act))
  {
    if act.PlaceUnanswered? || act.SyncUnanswered? {
      var done := UnansweredIs(k, sl, act, next);
      AnsweredWritesAre(k, sl, Answered(act), done);
    } else {
      AnsweredWritesAre(k, sl, act, next);
    }
  }

  /** All other steps leave specification and annotations alone. */
  predicate Untouched(sl: Slice, next: Slice) {
    next.sh.capp.Some? ==>
      && sl.sh.capp.Some? && next.sh.capp.value.spec == sl.sh.capp.value.spec
      && next.sh.capp.value.annotations == sl.sh.capp.value.annotations
  }

  lemma NonWritesPlace(sl: Slice, env: Env, next: Slice)
    requires PlaceStep(sl, env) == Some(next) && !Commits(sl, Place(env))
    ensures Untouched(sl, next)
  {
  }

  lemma NonWritesSync(k: Key, sl: Slice, env: Env, next: Slice)
    requires SyncStep(k, sl, env) == Some(next) && WriteOf(sl, Sync(env)).None?
    ensures Untouched(sl, next)
  {
    if !sl.s.AddingFinalizer? && !sl.s.RemovingFinalizer? {
      SyncKeepsCapp(k, sl, env, next);
    } else {
      RefusedSync(k, sl, env, next);
    }
  }

  lemma RefusedSync(k: Key, sl: Slice, env: Env, next: Slice)
    requires SyncStep(k, sl, env) == Some(next) && WriteOf(sl, Sync(env)).None?
    requires sl.s.AddingFinalizer? || sl.s.RemovingFinalizer?
    ensures next.sh == sl.sh
  {
    RefusedKeeps(sl.sh, env.admission, CONTROLLER, FinalizerEdit(sl.s));
  }

  lemma RefusedKeeps(sh: Shard, env: AdmissionEnv, user: string, req: Capp)
    ensures !UpdateCapp(sh, env, user, req).0.Done? ==> UpdateCapp(sh, env, user, req).1 == sh
  {
  }

  lemma AnsweredNonWrites(k: Key, sl: Slice, act: Act, next: Slice)
    requires Step(k, sl, act) == Some(next) && WriteOf(sl, act).None? && Answered(act) == act
    ensures Untouched(sl, next)
  {
    match act
    case Place(env) => NonWritesPlace(sl, env, next);
    case Sync(env) => NonWritesSync(k, sl, env, next);
    case Edit(u, env, _, _, _, _) => RefusedKeeps(sl.sh, env.admission, u, EditOf(sl, act));
    case _ =>
  }

  lemma NonWrites(k: Key, sl: Slice, act: Act, next: Slice)
    requires Step(k, sl, act) == Some(next) && WriteOf(sl, act).None?
    ensures Untouched(sl, next)
  {
    if act.PlaceUnanswered? || act.SyncUnanswered? {
      var done := UnansweredIs(k, sl, act, next);
      AnsweredNonWrites(k, sl, Answered(act), done);
    } else {
      AnsweredNonWrites(k, sl, act, next);
    }
  }

  /* ----- Last updated by ----- */

  /** The latest non-excluded writer after a step, given the one before it. */
  function NextUser(sl: Slice, act: Act, last: Option<string>): Option<string> {
    match WriteOf(sl, act)
    case Some((user, _)) => if !Excluded(user) then Some(user) else if act.Create? then None else last
    case None => last
  }

  /** The latest user outside the deployer's namespace who wrote the present incarnation. */
  function LastUser(slices: seq<Slice>, acts: seq<Act>, n: nat): Option<string>
    requires |slices| == |acts| + 1 && n < |slices|
  {
    if n == 0 || slices[n].sh.capp.None? then None
    else NextUser(slices[n - 1], acts[n - 1], LastUser(slices, acts, n - 1))
  }

  predicate NamesLast(sh: Shard, last: Option<string>) {
    last.Some? ==> sh.capp.Some? && UpdatedBy(sh.capp.value) == last
  }

  /** Excluded users who edit write back the annotation they read. The controllers need no such assumption. */
  predicate WritesBack(sl: Slice, act: Act) {
    act.Edit? && Excluded(act.username) && sl.sh.capp.Some? ==>
      UpdatedBy(EditOf(sl, act)) == UpdatedBy(sl.sh.capp.value)
  }

  lemma UpdatedByStep(k: Key, sl: Slice, act: Act, next: Slice)
    requires VersionInv(sl) && Step(k, sl, act) == Some(next) && WritesBack(sl, act)
    requires next.sh.capp.Some?
    ensures WriteOf(sl, act).Some? && !Excluded(WriteOf(sl, act).value.0) ==>
      UpdatedBy(next.sh.capp.value) == Some(WriteOf(sl, act).value.0)
    ensures (WriteOf(sl, act).None? || Excluded(WriteOf(sl, act).value.0)) && !act.Create? ==>
      sl.sh.capp.Some? && UpdatedBy(next.sh.capp.value) == UpdatedBy(sl.sh.capp.value)
  {
    if WriteOf(sl, act).Some? {
      WritesAre(k, sl, act, next);
    } else {
      NonWrites(k, sl, act, next);
    }
  }

  lemma NextUserNamed(k: Key, sl: Slice, act: Act, next: Slice, last: Option<string>)
    requires VersionInv(sl) && Step(k, sl, act) == Some(next) && WritesBack(sl, act)
    requires NamesLast(sl.sh, last) && next.sh.capp.Some?
    ensures NamesLast(next.sh, NextUser(sl, act, last))
  {
    UpdatedByStep(k, sl, act, next);
    if act.Create? && WriteOf(sl, act).None? {
      NonWrites(k, sl, act, next);
    }
  }

  /** After any run, the annotation names the latest non-excluded writer. */
  lemma {:induction false} LastUpdatedBy(k: Key, slices: seq<Slice>, acts: seq<Act>, n: nat)
    requires IsSliceRun(k, slices, acts) && n < |slices|
    requires forall i :: 0 <= i < |acts| ==> WritesBack(slices[i], acts[i])
    ensures NamesLast(slices[n].sh, LastUser(slices, acts, n))
  {
    if n > 0 && slices[n].sh.capp.Some? {
      LastUpdatedBy(k, slices, acts, n - 1);
      VersionsHold(k, slices, acts, n - 1);
      RunStep(k, slices, acts, n - 1);
      NextUserNamed(k, slices[n - 1], acts[n - 1], slices[n], LastUser(slices, acts, n - 1));
    }
  }

  /** A successful write by this user, who is not excluded. */
  predicate WritesAs(sl: Slice, act: Act, user: string) {
    WriteOf(sl, act).Some? && WriteOf(sl, act).value.0 == user && !Excluded(user)
  }

  /** The Capp exists and at most an excluded user writes. */
  predicate PassesBy(sl: Slice, act: Act) {
    sl.sh.capp.Some? && (WriteOf(sl, act).Some? ==> Excluded(WriteOf(sl, act).value.0))
  }

  predicate Tells(sh: Shard, user: string) {
    sh.capp.Some? ==> UpdatedBy(sh.capp.value) == Some(user)
  }

  lemma WriterTold(k: Key, sl: Slice, act: Act, next: Slice, user: string)
    requires VersionInv(sl) && Step(k, sl, act) == Some(next) && WritesBack(sl, act) && WritesAs(sl, act, user)
    ensures Tells(next.sh, user)
  {
    if next.sh.capp.Some? {
      UpdatedByStep(k, sl, act, next);
    }
  }

  lemma StillTold(k: Key, sl: Slice, act: Act, next: Slice, user: string)
    requires VersionInv(sl) && Step(k, sl, act) == Some(next) && WritesBack(sl, act)
    requires PassesBy(sl, act) && Tells(sl.sh, user)
    ensures Tells(next.sh, user)
  {
    if next.sh.capp.Some? {
      if act.Create? {
        NonWrites(k, sl, act, next);
      } else {
        UpdatedByStep(k, sl, act, next);
      }
    }
  }

  lemma ToldNext(k: Key, slices: seq<Slice>, acts: seq<Act>, j: nat, user: string)
    requires IsSliceRun(k, slices, acts) && j < |acts| && WritesBack(slices[j], acts[j])
    requires WritesAs(slices[j], acts[j], user) || (PassesBy(slices[j], acts[j]) && Tells(slices[j].sh, user))
    ensures Tells(slices[j + 1].sh, user)
  {
    VersionsHold(k, slices, acts, j);
    RunStep(k, slices, acts, j);
    if WritesAs(slices[j], acts[j], user) {
      WriterTold(k, slices[j], acts[j], slices[j + 1], user);
    } else {
      StillTold(k, slices[j], acts[j], slices[j + 1], user);
    }
  }

  /** Between the two states, excluded users write back what they read, and from after the first on only they write. */
  predicate PassesFrom(slices: seq<Slice>, acts: seq<Act>, i: nat, n: nat)
    requires |slices| == |acts| + 1 && i < n < |slices|
  {
    && (forall j :: i <= j < n ==> WritesBack(slices[j], acts[j]))
    && (forall j :: i < j < n ==> PassesBy(slices[j], acts[j]))
  }

  /** The same without counting along: the annotation still names a user who wrote at step `i`, if since then the Capp
      has existed and only excluded users have written. */
  lemma {:induction false} LatestWriterStands(k: Key, slices: seq<Slice>, acts: seq<Act>, i: nat, n: nat, user: string)
    requires IsSliceRun(k, slices, acts) && i < n < |slices|
    requires WritesAs(slices[i], acts[i], user) && PassesFrom(slices, acts, i, n)
    ensures Tells(slices[n].sh, user)
    decreases n
  {
    if i + 1 < n {
      LatestWriterStands(k, slices, acts, i, n - 1, user);
    }
    ToldNext(k, slices, acts, n - 1, user);
  }

  /* ----- Admitted hostnames and sites ----- */

  /** What the webhooks saw at the latest main-resource write. */
  function LastAdmission(slices: seq<Slice>, acts: seq<Act>, n: nat): Option<AdmissionEnv>
    requires |slices| == |acts| + 1 && n < |slices|
  {
    if n == 0 then None
    else
      match WriteOf(slices[n - 1], acts[n - 1])
      case Some((_, env)) => Some(env)
      case None => LastAdmission(slices, acts, n - 1)
  }

  /** What the webhooks saw at the write that introduced the present hostname. */
  function HostAdmission(slices: seq<Slice>, acts: seq<Act>, n: nat): Option<AdmissionEnv>
    requires |slices| == |acts| + 1 && n < |slices|
  {
    if n == 0 then None
    else if WriteOf(slices[n - 1], acts[n - 1]).Some? && HostnameOf(slices[n].sh) != HostnameOf(slices[n - 1].sh) then
      Some(WriteOf(slices[n - 1], acts[n - 1]).value.1)
    else HostAdmission(slices, acts, n - 1)
  }

  /** The stored site was empty, a managed cluster or a placement at the latest main-resource write, and a stored
      hostname passed every check at the write that introduced it. */
  lemma {:induction false} AdmissionHistory(k: Key, slices: seq<Slice>, acts: seq<Act>, n: nat)
    requires IsSliceRun(k, slices, acts) && n < |slices| && slices[n].sh.capp.Some?
    ensures LastAdmission(slices, acts, n).Some?
    ensures var (env, site) := (LastAdmission(slices, acts, n).value, slices[n].sh.capp.value.spec.site);
      || site == ""
      || (exists i :: 0 <= i < |env.clusters| && env.clusters[i] == site)
      || (env.config.Some?
          && exists i :: 0 <= i < |env.config.value.placements| && env.config.value.placements[i] == site)
    ensures HostnameOf(slices[n].sh) != "" ==>
      && HostAdmission(slices, acts, n).Some?
      && HostnamePassed(HostAdmission(slices, acts, n).value, HostnameOf(slices[n].sh))
  {
    var before, act := slices[n - 1], acts[n - 1];
    VersionsHold(k, slices, acts, n - 1);
    RunStep(k, slices, acts, n - 1);
    if WriteOf(before, act).Some? {
      WritesAre(k, before, act, slices[n]);
    } else {
      NonWrites(k, before, act, slices[n]);
    }
    if before.sh.capp.Some? {
      AdmissionHistory(k, slices, acts, n - 1);
    }
  }

  /* ----- The same for the whole system ----- */

  /** Excluded users who edit this Capp write back the annotation they read. */
  predicate WritesBackRun(states: seq<System>, actions: seq<Action>, k: Key)
    requires |states| == |actions| + 1
  {
    forall i :: 0 <= i < |actions| && actions[i].At? && actions[i].key == k ==>
      WritesBack(SliceOf(states[i], k), actions[i].act)
  }

  lemma WritesBackProjects(states: seq<System>, actions: seq<Action>, k: Key)
    requires |states| == |actions| + 1 && WritesBackRun(states, actions, k)
    ensures forall i :: 0 <= i < |actions| ==> WritesBack(SlicesFor(states, k)[i], ActsFor(states, actions, k)[i])
  {
    var slices, acts := SlicesFor(states, k), ActsFor(states, actions, k);
    forall i | 0 <= i < |actions|
      ensures WritesBack(slices[i], acts[i])
    {
      ActIs(states, actions, k, i);
    }
  }

  lemma SystemLastUpdatedBy(keys: set<Key>, states: seq<System>, actions: seq<Action>, n: nat, k: Key)
    requires IsRun(keys, states, actions) && NoCollision(keys) && n < |states| && k in keys
    requires WritesBackRun(states, actions, k)
    ensures NamesLast(ShardOf(states[n].store, k), LastUser(SlicesFor(states, k), ActsFor(states, actions, k), n))
  {
    RunProjects(keys, states, actions, k);
    WritesBackProjects(states, actions, k);
    LastUpdatedBy(k, SlicesFor(states, k), ActsFor(states, actions, k), n);
  }

  lemma SystemAdmissionHistory(keys: set<Key>, states: seq<System>, actions: seq<Action>, n: nat, k: Key)
    requires IsRun(keys, states, actions) && NoCollision(keys) && n < |states| && k in keys
    requires k in states[n].store.capps
    ensures var slices, acts := SlicesFor(states, k), ActsFor(states, actions, k);
      var spec := states[n].store.capps[k].spec;
      && LastAdmission(slices, acts, n).Some?
      && (var env := LastAdmission(slices, acts, n).value;
          || spec.site == ""
          || (exists i :: 0 <= i < |env.clusters| && env.clusters[i] == spec.site)
          || (env.config.Some?
              && exists i :: 0 <= i < |env.config.value.placements| && env.config.value.placements[i] == spec.site))
      && (spec.hostname != "" ==>
            && HostAdmission(slices, acts, n).Some?
            && HostnamePassed(HostAdmission(slices, acts, n).value, spec.hostname))
  {
    RunProjects(keys, states, actions, k);
    AdmissionHistory(k, SlicesFor(states, k), ActsFor(states, actions, k), n);
  }
}
