/** The part of the API server's state that belongs to one Capp, and the calls on it. */
module Shards {
  import opened Objects
  import opened Admission

  /** One Capp, the ManifestWorks of its name by cluster namespace, and the last version number given out. */
  datatype Shard = Shard(capp: Option<Capp>, works: map<string, Work>, clock: nat)

  datatype Reply<+T> = Done(value: T) | Missing | Conflict | Refused

  /** Writes an existing Capp: nothing happens when the write changes nothing, and the object vanishes when it is
      being deleted and its last finalizer goes. */
  function Write(sh: Shard, c: Capp): Shard
    requires sh.capp.Some?
  {
    if c.(version := sh.capp.value.version) == sh.capp.value then sh
    else if c.deleting && c.finalizers == {} then sh.(capp := None, clock := sh.clock + 1)
    else sh.(capp := Some(c.(version := sh.clock + 1)), clock := sh.clock + 1)
  }

  /** The object that the server returns for a write. */
  function Written(sh: Shard, c: Capp): Capp
    requires sh.capp.Some?
  {
    c.(version := if c.(version := sh.capp.value.version) == sh.capp.value
                  then sh.capp.value.version else sh.clock + 1)
  }

  /** Update of the main resource: metadata and specification, never the status. */
  function UpdateCapp(sh: Shard, env: AdmissionEnv, username: string, req: Capp): (Reply<Capp>, Shard) {
    if sh.capp.None? then (Missing, sh)
    else
      var cur := sh.capp.value;
      if req.uid != cur.uid || req.version != cur.version then (Conflict, sh)
      else if cur.deleting && !(req.finalizers <= cur.finalizers) then (Refused, sh)
      else
        var next := cur.(finalizers := req.finalizers, labels := req.labels,
                         annotations := req.annotations, spec := req.spec);
        match Admit(env, username, cur.spec.hostname, next)
        case None => (Refused, sh)
        case Some(c) => (Done(Written(sh, c)), Write(sh, c))
  }

  /** Update of the status subresource: the status alone, past no webhook. */
  function UpdateStatus(sh: Shard, req: Capp): (Reply<Capp>, Shard) {
    if sh.capp.None? then (Missing, sh)
    else
      var cur := sh.capp.value;
      if req.uid != cur.uid || req.version != cur.version then (Conflict, sh)
      else
        var c := cur.(site := req.site, report := req.report);
        (Done(Written(sh, c)), Write(sh, c))
  }

  function CreateCapp(sh: Shard, env: AdmissionEnv, username: string, draft: Capp): (Reply<Capp>, Shard) {
    if sh.capp.Some? then (Refused, sh)
    else
      var made := draft.(uid := sh.clock + 1, version := sh.clock + 1, deleting := false, site := "", report := "");
      match Admit(env, username, "", made)
      case None => (Refused, sh)
      case Some(c) => (Done(c), sh.(capp := Some(c), clock := sh.clock + 1))
  }

  /** An object with finalizers is only marked. */
  function DeleteCapp(sh: Shard): Shard {
    if sh.capp.None? || (sh.capp.value.deleting && sh.capp.value.finalizers != {}) then sh
    else if sh.capp.value.finalizers == {} then sh.(capp := None, clock := sh.clock + 1)
    else sh.(capp := Some(sh.capp.value.(deleting := true, version := sh.clock + 1)), clock := sh.clock + 1)
  }

  function GetWork(sh: Shard, cluster: string): Option<Work> {
    if cluster in sh.works then Some(sh.works[cluster]) else None
  }

  function NewWork(version: nat, manifests: seq<Manifest>): Work {
    Work(version, false, {}, "", [""], manifests)
  }

  function CreateWork(sh: Shard, cluster: string, manifests: seq<Manifest>): (Reply<Work>, Shard) {
    if cluster == "" || cluster in sh.works then (Refused, sh)
    else
      var w := NewWork(sh.clock + 1, manifests);
      (Done(w), sh.(works := sh.works[cluster := w], clock := sh.clock + 1))
  }

  /** Writes an existing ManifestWork, like `Write`. */
  function PutWork(sh: Shard, cluster: string, w: Work): Shard
    requires cluster in sh.works
  {
    if w.(version := sh.works[cluster].version) == sh.works[cluster] then sh
    else if w.deleting && w.finalizers == {} then sh.(works := sh.works - {cluster}, clock := sh.clock + 1)
    else sh.(works := sh.works[cluster := w.(version := sh.clock + 1)], clock := sh.clock + 1)
  }

  function UpdateWork(sh: Shard, cluster: string, req: Work): (Reply<()>, Shard) {
    if cluster !in sh.works then (Missing, sh)
    else if req.version != sh.works[cluster].version then (Conflict, sh)
    else (Done(()), PutWork(sh, cluster, sh.works[cluster].(manifests := req.manifests, configs := req.configs)))
  }

  function DeleteWork(sh: Shard, cluster: string): (Reply<()>, Shard) {
    if cluster !in sh.works then (Missing, sh)
    else
      var w := sh.works[cluster];
      (Done(()),
       if w.finalizers == {} then sh.(works := sh.works - {cluster}, clock := sh.clock + 1)
       else PutWork(sh, cluster, w.(deleting := true)))
  }

  /** The work agent writes finalizers and status; it cannot add finalizers to a work being deleted. */
  function AgentWrite(sh: Shard, cluster: string, finalizers: set<string>, status: string): Shard {
    if cluster !in sh.works || (sh.works[cluster].deleting && !(finalizers <= sh.works[cluster].finalizers)) then sh
    else PutWork(sh, cluster, sh.works[cluster].(finalizers := finalizers, status := status))
  }

  /* ----- What the calls do, field by field ----- */

  /** What an update of the main resource asks for. */
  function Asked(cur: Capp, req: Capp): Capp {
    Capp(cur.uid, cur.version, cur.deleting, req.finalizers, req.labels, req.annotations, req.spec,
         cur.site, cur.report)
  }

  /** An update succeeds exactly on the stored incarnation and version, without new finalizers on an object being
      deleted, past the webhooks. It stores what they let through, or drops the object. */
  lemma UpdateCappIs(sh: Shard, env: AdmissionEnv, username: string, req: Capp)
    ensures var (reply, next) := UpdateCapp(sh, env, username, req);
      && (reply.Done? <==>
            && sh.capp.Some? && req.uid == sh.capp.value.uid && req.version == sh.capp.value.version
            && (sh.capp.value.deleting ==> req.finalizers <= sh.capp.value.finalizers)
            && Admit(env, username, sh.capp.value.spec.hostname, Asked(sh.capp.value, req)).Some?)
      && (reply == Missing <==> sh.capp.None?)
      && (reply == Conflict <==>
            sh.capp.Some? && (req.uid != sh.capp.value.uid || req.version != sh.capp.value.version))
      && (!reply.Done? ==> next == sh)
      && (reply.Done? ==>
            && env.config.Some?
            && StoredFor(Asked(sh.capp.value, req), reply.value.(version := sh.capp.value.version),
                         env.config.value, username)
            && PutAs(sh, next, reply.value))
  {
    if UpdateCapp(sh, env, username, req).0.Done? {
      var cur := sh.capp.value;
      var asked := cur.(finalizers := req.finalizers, labels := req.labels, annotations := req.annotations,
                        spec := req.spec);
      assert asked == Asked(cur, req);
      AdmitIff(env, username, cur.spec.hostname, asked, Admit(env, username, cur.spec.hostname, asked).value);
    }
  }

  /** The object is stored as it is when nothing changed, under a new version when something did, or dropped when it is
      being deleted and has no finalizer left. The ManifestWorks stay. */
  predicate PutAs(a: Shard, b: Shard, c: Capp)
    requires a.capp.Some?
  {
    && b.works == a.works
    && if c == a.capp.value then b == a
       else
         && b.clock == a.clock + 1 && c.version == a.clock + 1
         && b.capp == if c.deleting && c.finalizers == {} then None else Some(c)
  }

  /** An update of the status subresource writes the status alone. */
  lemma UpdateStatusIs(sh: Shard, req: Capp)
    ensures var (reply, next) := UpdateStatus(sh, req);
      && (reply.Done? <==> sh.capp.Some? && req.uid == sh.capp.value.uid && req.version == sh.capp.value.version)
      && (!reply.Done? ==> next == sh)
      && (reply.Done? ==>
            var cur := sh.capp.value;
            && reply.value == Capp(cur.uid, reply.value.version, cur.deleting, cur.finalizers, cur.labels,
                                   cur.annotations, cur.spec, req.site, req.report)
            && PutAs(sh, next, reply.value))
  {
  }

  lemma CreateWorkIs(sh: Shard, cluster: string, manifests: seq<Manifest>)
    ensures var (reply, next) := CreateWork(sh, cluster, manifests);
      && (reply.Done? <==> cluster != "" && cluster !in sh.works)
      && (if reply.Done? then
            && next.capp == sh.capp && next.clock == sh.clock + 1
            && next.works == sh.works[cluster := Work(sh.clock + 1, false, {}, "", [""], manifests)]
          else next == sh)
  {
  }

  /** An update of a ManifestWork succeeds exactly on the stored version, and writes manifests and options alone. */
  lemma UpdateWorkIs(sh: Shard, cluster: string, req: Work)
    ensures var (reply, next) := UpdateWork(sh, cluster, req);
      && (reply.Done? <==> cluster in sh.works && req.version == sh.works[cluster].version)
      && (!reply.Done? ==> next == sh)
      && (reply.Done? && cluster in next.works ==>
            var before, after := sh.works[cluster], next.works[cluster];
            && after == Work(after.version, before.deleting, before.finalizers, before.status,
                             req.configs, req.manifests)
            && next.works == sh.works[cluster := after] && next.capp == sh.capp)
  {
  }

  /** A ManifestWork with finalizers is only marked. */
  lemma DeleteWorkIs(sh: Shard, cluster: string)
    ensures var (reply, next) := DeleteWork(sh, cluster);
      && next.capp == sh.capp
      && (if cluster !in sh.works then next == sh
          else if sh.works[cluster].finalizers == {} then next.works == sh.works - {cluster}
          else
            && cluster in next.works && next.works[cluster].deleting
            && next.works[cluster].(version := sh.works[cluster].version, deleting := sh.works[cluster].deleting)
               == sh.works[cluster]
            && next.works == sh.works[cluster := next.works[cluster]])
  {
  }

  /** A new Capp gets an identity and an empty status, past the webhooks. */
  lemma CreateCappIs(sh: Shard, env: AdmissionEnv, username: string, draft: Capp)
    ensures var (reply, next) := CreateCapp(sh, env, username, draft);
      && (reply.Done? ==>
            && sh.capp.None? && env.config.Some?
            && StoredFor(Capp(sh.clock + 1, sh.clock + 1, false, draft.finalizers, draft.labels, draft.annotations,
                              draft.spec, "", ""), reply.value, env.config.value, username)
            && Valid(env, reply.value.spec, "")
            && next == Shard(Some(reply.value), sh.works, sh.clock + 1))
      && (!reply.Done? ==> next == sh)
  {
    var made := Capp(sh.clock + 1, sh.clock + 1, false, draft.finalizers, draft.labels, draft.annotations, draft.spec,
                     "", "");
    assert made == draft.(uid := sh.clock + 1, version := sh.clock + 1, deleting := false, site := "", report := "");
    if Admit(env, username, "", made).Some? {
      AdmitIff(env, username, "", made, Admit(env, username, "", made).value);
    }
  }

  /** A Capp with finalizers is only marked. */
  lemma DeleteCappIs(sh: Shard)
    ensures var next := DeleteCapp(sh);
      && next.works == sh.works
      && (if sh.capp.None? then next == sh
          else if sh.capp.value.finalizers == {} then next.capp.None?
          else
            && next.capp.Some? && next.capp.value.deleting
            && next.capp.value.(version := sh.capp.value.version, deleting := sh.capp.value.deleting) == sh.capp.value)
  {
  }

  /** The work agent writes finalizers and status alone, and ends a deletion by clearing the finalizers. */
  lemma AgentWriteIs(sh: Shard, cluster: string, finalizers: set<string>, status: string)
    ensures var next := AgentWrite(sh, cluster, finalizers, status);
      && next.capp == sh.capp
      && (cluster !in sh.works ==> next == sh)
      && (cluster in sh.works && cluster !in next.works ==>
            sh.works[cluster].deleting && finalizers == {} && next.works == sh.works - {cluster})
      && (cluster in next.works ==>
            var before, after := sh.works[cluster], next.works[cluster];
            && next.works == sh.works[cluster := after]
            && after.(version := before.version, finalizers := before.finalizers, status := before.status) == before)
  {
  }
}
