# rcs-ocm-deployer: a verified model

rcs-ocm-deployer places Capps on managed clusters and keeps one ManifestWork per Capp in step with it. Two controllers
share this job and talk only through the Capp object: the placement controller writes `status.applicationLinks.site`
and then the `has-placement` annotation; the sync controller adds the cleanup finalizer, writes the ManifestWork into
the annotated cluster's namespace, and on deletion removes the ManifestWork before it releases the finalizer. Two
webhooks see every write of the main resource, those of the controllers included.

The project models this three times over and connects the three:

* **The step relation.** `Protocol.Step` is one API call of anybody: a user creating, editing or deleting a Capp, a
  status report, the work agent, either controller at any program point with its local snapshot, a call that fails, a
  call whose effect stands while its reply is lost, a restart. `Shards` gives the API server's rules for one Capp and its
  ManifestWorks (resource versions, no-op writes, the status subresource, finalizers, creation), and states what each
  call does field by field. `Systems` puts any number of Capps into one store and shows that each can be looked at
  alone. `Versions`, `Safety` and `Queues` hold inductive invariants; `Guarantees` and `Histories` state the theorems
  over all runs.
* **The programs.** `ApiServers.ApiServer` is the store as an object with mutable maps; `Reconcilers.PlacementReconciler`
  and `Reconcilers.SyncReconciler` are the controllers' methods written over it; `References`, `Assembly`, `Decisions`,
  `Admission` and `Usernames` hold the loops and in-place map writes of the gathering, assembly, decision and webhook code.
* **Whole turns.** `Turns` runs the step relation to the end of one reconcile and says what that does; the programs are
  proved to do the same to the store, and those runs are proved to be runs of the interleaved system. `Progress` ranks
  how far a Capp is from rest; `Convergence` shows that single calls of both controllers and the agents, driven by what
  is in flight and what the queues hold, bring every Capp to rest in any fair interleaving. `Witness` holds concrete runs: one that meets all
  assumptions, and two that show what is lost without them.

## Reading the theorems

Assumptions of the step relation:

* Reads are linearizable: a reconcile reads what is stored at that moment. The event of a write is queued together with
  the write. A write that changes nothing keeps the resource version and causes no event.
* One process runs both controllers, and each controller works on a key at most once at a time. A waiting key is one bit:
  a queue holds a key at most once.
* A key that must come back later (an error, a delay) waits again at once: time is not modelled.
* Only the controllers write the `has-placement` annotation, the cleanup finalizer and the recorded site
  (`Protocol.LeavesProtocol` and the guard of `Create`). The work agent changes the finalizers and status of
  ManifestWorks; nobody but the sync controller creates or deletes them.
* The reads that assemble manifests, and the two reads that pick a decision, are one step each. What they find is chosen
  afresh and without constraint at that step, so any change of the world between those reads is covered, except that two
  references to the same object see the same content.
* Predicates the program takes from libraries (fully qualified names, regular expressions, DNS) are given by what they
  answer, and may answer differently at each step.

Assumptions that individual theorems name in their `requires`:

* `Names.NoCollision`: the Capps considered have different ManifestWork names. `Names.CollisionFreeKeys` discharges it
  within one namespace and for namespaces without hyphens; `Names.CollisionIffShifted` says exactly when it fails.
* `Guarantees.KeepsRun`: whenever a placement reconcile writes the status of a Capp that is placed already and that
  nobody has changed since it was read, it has chosen the cluster of the annotation. The source does not check this: it
  never looks at the annotation (internal/placement/controller/placement_controller.go:83-105), and its own status write
  queues the still unplaced key once more. The condition is exact: `Guarantees.SitesAgreeIff` shows that annotation and
  recorded site agree in all states of a run if and only if it holds, and then the finalizer guard and the single home
  hold as well. It follows when every incarnation of a Capp is always resolved to the same cluster
  (`Guarantees.StableRunKeeps`). `Witness.UnstableResolutionOrphans` is a run without a crash or an error in which it
  fails: a Capp moves and is released while its ManifestWork stays.
* `Guarantees.NeverAdopts`: no sync ends by updating a ManifestWork that is being deleted, unless an event has told it
  to come back. The source updates such a ManifestWork, never looks at its deletion mark, and reports success
  (internal/sync/controller/sync_controller.go:97-113). With steady references this is exact too:
  `Guarantees.SystemLiveIff` shows that every placed live Capp is deployed (its ManifestWork carries its present content
  and is there to stay) or waits for or is in a sync, in all states of a run, if and only if it holds.
  `Guarantees.KeepsRun` implies it (`Guarantees.KeepsNeverAdopts`). In `Witness.AdoptedWorkIsLost` a Capp that moved has
  left a ManifestWork that is being deleted, a new Capp of the same name adopts it, and the work agent finishes the
  deletion: a live placed Capp is left without its ManifestWork and nobody waits.
* `Guarantees.SteadyRun`: the referenced ConfigMaps, Secrets and RoleBindings do not change. Nothing watches them. Only
  what is said of the content of live Capps' ManifestWorks depends on it.

`Witness.AssumptionsAreMet` is a run that meets all of these and deploys a Capp. Convergence assumes besides:

* `Convergence.AllQuiet`: users no longer write, decisions are stable, manifests can be assembled, the webhooks let the
  Capp through as it stands, and a placement reconcile in flight has read the present configuration and, if its snapshot
  is still current, has chosen by the present decisions. One that has not would place an unplaced Capp at the outdated
  cluster, and the reconcile its status write queues would then move it. A sync in flight may have read anything.

The two-write commit, provenance, the last-updated-by history, the admission history, and the promise that unplaced and
deleted Capps are never forgotten need none of these but, for many Capps at once, the absence of name collisions.

Where the code and its comments or documentation disagree, the model follows the code:

* `mutateResources` says it sets defaults for resources that do not exist. A Capp without any request or limit list keeps
  having none, because the loop fills its copy of the container (internal/webhooks/mutator.go:88-90).
  `Admission.DefaultedIff` gives the exact condition.
* `getResourceVolumesFromContainerSpec` claims to collect TLS secrets (internal/sync/directors/volumes.go:127); it does not.
* `pickDecision` claims to annotate the Capp (internal/placement/controller/placement_controller.go:135-136); it only picks.
* `SetManifestWorkCappAnnotations` writes into a copy (internal/sync/adapters/manifestwork.go:52 and 64-68), so a created
  ManifestWork carries no annotations.
* The repository's README says the cluster with the highest score is chosen (README.md:31). The code takes the first
  entry of the first PlacementDecision, past `local-cluster` (internal/placement/adapters/placement.go:42-61).
* A missing configuration is logged by the mutator and then dereferenced (internal/webhooks/mutator.go:49-55). The
  webhooks are registered with `failurePolicy=fail`, so the model refuses the write.

## Model

| member | source | states |
|---|---|---|
| Guarantees.FinalizerGuardsDeployment | internal/sync/adapters/capp.go:21-68 | As long as no status write moves a placed Capp: in every state of every interleaving of any number of Capps, a ManifestWork that exists has a Capp that exists, carries the cleanup finalizer, and names that cluster in both the annotation and the recorded site; so no Capp disappears before its ManifestWork, and deletion looks where sync wrote |
| Guarantees.SingleManifestWork | internal/sync/controller/sync_controller.go:87-114 | Under the same condition, over all cluster namespaces a Capp never has two ManifestWorks |
| Guarantees.NeverForgotten | internal/sync/controller/sync_controller.go:48-83 | In every reachable state, whatever the decisions and references: an unplaced Capp waits for or is in a placement reconcile, and a placed Capp that is being deleted and still holds the finalizer waits for or is in a sync reconcile |
| Guarantees.SystemLiveIff | internal/sync/controller/sync_controller.go:97-113 | For every run of the system with steady references: every placed live Capp is deployed (its ManifestWork carries its present content and is not being deleted) or waits for or is in a sync reconcile, in all states, if and only if no sync that nothing told to come back updates a ManifestWork that is being deleted |
| Guarantees.LiveIff | internal/sync/controller/sync_controller.go:87-114 | The same for the run of one key |
| Guarantees.NoLostWork | internal/sync/controller/sync_controller.go:48-114 | In every reachable state of such a run a placed live Capp is deployed, and so settled, or waits for or is in a sync reconcile |
| Guarantees.KeepsNeverAdopts | internal/sync/adapters/capp.go:46-57 | When no status write moves a placed Capp, no sync updates a ManifestWork that is being deleted |
| Witness.AdoptedWorkIsLost | internal/sync/controller/sync_controller.go:97-113 | A concrete run without crash or error and with steady references, in which a sync updates a ManifestWork that is being deleted, ends with a live placed Capp that has no ManifestWork while neither controller waits or runs |
| Guarantees.TwoWriteCommit | internal/placement/adapters/capp.go:19-39 | At the instant the annotation write succeeds, the stored Capp is exactly what the status write returned, its recorded site already is the annotated cluster, and the cluster has its provenance; unconditional |
| Guarantees.CommitChangesOnly | internal/placement/adapters/capp.go:31-39 | The annotation write changes the placement annotation, may supply resources, and leaves labels, other annotations, finalizers, status and the rest of the specification as they were |
| Guarantees.OnlyCommitsPlace | internal/placement/adapters/capp.go:19-39 | No step but a successful annotation write places a Capp or moves it: a crash, conflict or error between the two writes leaves an unplaced Capp unplaced |
| Guarantees.PlacementHasProvenance | internal/placement/controller/placement_controller.go:89-158 | Every placement found in any run was committed by an earlier step of that run, on the Capp as stored then, with status and annotation equal, and came from the site and the decisions read by that reconcile |
| Guarantees.SystemPlacementHasProvenance | internal/placement/controller/placement_controller.go:89-158 | The same in the whole system: the placement of any stored Capp was committed by an earlier action at its key |
| Guarantees.SitesAgreeIff | internal/placement/controller/placement_controller.go:83-105 | For every run of the system: recorded site and annotation agree on all placed Capps in all states if and only if no status write of a placement reconcile moves a placed Capp |
| Guarantees.AgreeIff | internal/placement/adapters/capp.go:19-39 | The same for the run of one key, and that the finalizer guard and the single home then hold in every state |
| Guarantees.StableRunKeeps | internal/placement/controller/placement_controller.go:89-102 | When every incarnation of a Capp is always resolved to the same cluster, no status write moves a placed Capp |
| Witness.UnstableResolutionOrphans | internal/placement/controller/placement_controller.go:65-108 | A concrete run without crash or error, in which the user changes the site between two placement reconciles, ends with the Capp gone and its first ManifestWork still there: the condition on status writes is needed |
| Witness.AssumptionsAreMet | internal/placement/controller/placement_controller.go:65-108 | The assumptions of the run theorems can be met together: a concrete run of the system satisfies them all and ends with a ManifestWork in the store |
| Guarantees.VersionsHold | internal/sync/controller/sync_controller.go:48-67 | Along every run each reconcile's snapshot is the stored object whenever its version still is the stored version; this is what makes each write safe |
| Guarantees.SafeHolds | internal/sync/controller/sync_controller.go:48-114 | The safety invariant holds along a run of one key as long as no status write moved its placed Capp |
| Guarantees.PendingHolds | internal/sync/controller/sync_controller.go:48-114 | That unplaced and deleted Capps are pending, and that a sync without a new event works on the stored Capp, holds along every run of one key |
| Guarantees.QueuesHold | internal/sync/controller/sync_controller.go:48-114 | The queue invariant holds along a run of one key as long as references are steady and no sync adopts a ManifestWork that is being deleted |
| Versions.VersionStep | internal/placement/adapters/capp.go:19-39 | Every step of anybody keeps what all snapshots know, and gives every changed object a version no snapshot can have |
| Safety.SafeStep | internal/sync/adapters/capp.go:21-68 | Every step of anybody that does not move a placed Capp keeps: status and annotation agree, works stand only under a finalized Capp placed there, the Capp of a snapshot taken between finalizer and work is held, no work is left when the finalizer is removed |
| Safety.SafeInvMeans | internal/sync/adapters/capp.go:46-57 | The safety invariant gives the guard, the single home, and at most one ManifestWork |
| Queues.PendingStep | internal/sync/controller/sync_controller.go:48-83 | Every step of anybody keeps unplaced and deleted Capps pending |
| Queues.QueueStep | internal/sync/controller/sync_controller.go:48-114 | Every step of anybody, along every return path of both reconciles, keeps Capps that are not deployed pending, unless it adopts a ManifestWork that is being deleted |
| Queues.AdoptingForgets | internal/sync/controller/sync_controller.go:104-113 | A step that does so leaves a placed live Capp that is not deployed and that nobody has been told about |
| Queues.ExactlyOneAccepts | internal/sync/controller/sync_controller.go:69-83 | Of the two event filters, each with its create, update and delete function, exactly one accepts any event |
| Queues.EventsRouted | internal/placement/controller/placement_controller.go:110-124 | After a change the key waits for the controller in charge of the Capp as it is now, and the other queue is as it was; no change means no event |
| Objects.ContainsPlacementAnnotation | internal/utils/capp.go:30-38 | The lookup with its length tests holds exactly when the annotation has a non-empty value |
| Systems.Projection | internal/sync/adapters/manifestwork.go:43-45 | Capps with different ManifestWork names do not interfere: any action of the system is, for each key, one step of that key's own machine |
| Systems.RunProjects | internal/sync/adapters/manifestwork.go:43-45 | A run of the whole system without name collisions is a run of each key's machine |
| Systems.WorksHaveOwners | internal/sync/adapters/manifestwork.go:49-60 | Every ManifestWork in the store carries the name of one of the Capps acted on |
| Histories.LastUpdatedBy | internal/webhooks/mutator.go:68-82 | After any run of user and controller writes, the annotation names the latest non-excluded writer of the present incarnation, provided excluded users who edit write back what they read; the controllers are shown to do so |
| Histories.LatestWriterStands | internal/webhooks/mutator.go:68-82 | The annotation still names a non-excluded user who wrote, if since then the Capp has existed and only excluded users have written |
| Histories.SystemLastUpdatedBy | internal/webhooks/mutator.go:68-82 | The same for every Capp of the whole system |
| Histories.WritesAre | internal/webhooks/mutator.go:68-82 | A successful main-resource write stores the writer's name, or what an excluded writer sent, and passed the site and hostname checks; a controller sends what is stored |
| Histories.NonWrites | internal/placement/adapters/capp.go:20-23 | A step that is no successful main-resource write leaves specification and annotations alone |
| Histories.AdmissionHistory | internal/webhooks/validator.go:49-78 | Along any run, the stored site was empty or stood among the managed clusters or the configured placements at the latest main-resource write, and a stored non-empty hostname passed every check at the write that introduced it |
| Histories.SystemAdmissionHistory | internal/webhooks/validator.go:49-78 | The same for every Capp of the whole system |
| Progress.TurnDropsOrStays | internal/sync/controller/sync_controller.go:48-114 | Once the world is quiet, a turn of the placement controller, the sync controller or the work agents strictly lowers the rank or changes nothing at all, not even a version |
| Progress.SomeoneMoves | internal/sync/adapters/capp.go:21-68 | As long as the rank is positive, the turn of one particular actor changes the state |
| Progress.MoverIsPending | internal/sync/controller/sync_controller.go:69-83 | In a reachable state that is not at rest, that actor's reconcile is waiting or running, or a ManifestWork is being deleted |
| Convergence.Converges | internal/sync/controller/sync_controller.go:48-114 | In a quiet world, with any sync in flight and any placement reconcile in flight that has chosen by present data, six rounds of single calls bring the Capp to rest in any interleaving in which every actor moves 13 times a round: gone, released, or placed with a ManifestWork that carries its content and is there to stay, and no sequence of further moves changes the store |
| Convergence.MovedCloser | internal/placement/adapters/capp.go:19-39 | A single call of either controller, or the agents' move, lowers the rank or leaves the store alone, not touching even a version |
| Convergence.MoverCounts | internal/sync/controller/sync_controller.go:48-67 | A call of the one who can move the Capp changes the store or brings the change one call closer; a conflict means that the other has changed it |
| Convergence.SystemConverges | internal/sync/controller/sync_controller.go:48-114 | The same from every reachable state of the whole system |
| Convergence.PlayIsRun | internal/placement/controller/placement_controller.go:65-108 | These moves, in any order, are runs of the step relation |
| Progress.RestIsFixed | internal/placement/adapters/capp.go:19-39 | At rank zero no turn changes the state |
| Progress.ReachableIsCalm | internal/sync/controller/sync_controller.go:48-67 | All but the quiet that the rank argument assumes holds in every reachable state |
| Progress.AgentTurnIsRun | internal/sync/adapters/capp.go:46-57 | The agents' turn of the rank argument is a run of the step relation |
| Turns.CreateOrUpdate | internal/sync/controller/sync_controller.go:87-114 | A whole sync of a placed live Capp whose references resolve leaves one changed entry, under the annotated cluster, with the assembled manifests whatever was there before; an update keeps the entry's other fields; all other entries stay; the finalizer is there |
| Turns.FinishedCarries | internal/sync/controller/sync_controller.go:87-114 | When the finalizer is there or is added, the list is assembled and an entry can stand at the annotated cluster, that entry carries exactly the assembled list afterwards |
| Turns.SettledStays | internal/sync/controller/sync_controller.go:97-113 | A sync of a settled Capp changes nothing, not even a version |
| Turns.SyncTwice | internal/sync/controller/sync_controller.go:57-66 | When admission adds nothing, what was synced from the snapshot read before the finalizer was written is what the stored Capp gives, and a second sync changes nothing |
| Turns.DanglingWritesNothing | internal/sync/controller/sync_controller.go:92-95 | A dangling reference leaves every ManifestWork untouched |
| Turns.FinishSyncIsRun | internal/sync/controller/sync_controller.go:48-67 | Running a sync to its end is a run of sync steps alone |
| Turns.FinishPlaceIsRun | internal/placement/controller/placement_controller.go:65-108 | Running a placement reconcile to its end is a run of placement steps alone |
| Turns.SyncTurnLive | internal/sync/controller/sync_controller.go:63-66 | What the single steps of a sync of a live Capp add up to, and that it comes back whenever it could not finish |
| Turns.SyncTurnDeleting | internal/sync/adapters/capp.go:21-57 | What the single steps of a sync of a deleted Capp add up to: at most one of ManifestWork deletion and release; it always comes back |
| Turns.PlaceTurnIs | internal/placement/controller/placement_controller.go:83-107 | What the single steps of a placement reconcile that resolves a cluster add up to; its status write always succeeds when it runs alone |
| Turns.PlaceTurnElse | internal/placement/controller/placement_controller.go:66-101 | Without a configuration, a Capp or a decision a placement reconcile writes nothing |
| Reconcilers.PlacementReconciler.Reconcile | internal/placement/controller/placement_controller.go:65-108 | The program does to the store what the uninterrupted step relation does and touches nothing of other Capps; it answers an error without a configuration, for a missing Placement and when the annotation write fails, comes back later exactly when nothing is decided, and else is finished; it comes back only where that run leaves the key waiting, and when it finishes the Capp is placed with status and annotation equal |
| Reconcilers.PlacementReconciler.UpdateCappDestination | internal/placement/adapters/capp.go:19-28 | The annotation is written only after the status write succeeded, on the object and version that write returned |
| Reconcilers.PlacementReconciler.AddCappHasPlacementAnnotation | internal/placement/adapters/capp.go:31-39 | An update of the main resource that sets the annotation and keeps all others |
| Reconcilers.DestinationReached | internal/placement/adapters/capp.go:19-28 | When both writes succeed on a resolved cluster, the Capp is placed and its recorded site agrees |
| Reconcilers.SyncReconciler.Reconcile | internal/sync/controller/sync_controller.go:48-67 | The program does to the store what the uninterrupted step relation does and touches nothing of other Capps; a live Capp is finished exactly when it is under the finalizer, all references exist and an entry can stand at the annotated cluster, and then that entry carries the assembled list; a deleted one comes back, or is an error when its finalizer could not be removed; it comes back only where that run leaves the key waiting |
| Reconcilers.SyncReconciler.SyncManifestWork | internal/sync/controller/sync_controller.go:87-114 | The ManifestWork of the annotated cluster gets the assembled manifests whether it existed or not; finished exactly when assembly succeeded and an entry can stand there; nothing changes on a dangling reference |
| Reconcilers.SyncReconciler.HandleCappDeletion | internal/sync/adapters/capp.go:21-32 | Without the finalizer nothing happens; with it the ManifestWork at the recorded site is deleted, and only when there is none is the finalizer removed |
| Reconcilers.SyncReconciler.FinalizeCapp | internal/sync/adapters/capp.go:46-57 | The entry at the given cluster is deleted as the API server deletes; a missing entry is reported and nothing changes |
| Reconcilers.SyncReconciler.RemoveFinalizer | internal/sync/adapters/capp.go:35-42 | An update under the snapshot's version that drops only the cleanup finalizer |
| Reconcilers.SyncReconciler.EnsureFinalizer | internal/sync/adapters/capp.go:60-68 | No write when the finalizer is there, else an update under the snapshot's version that adds it |
| Reconcilers.SyncReconciler.CreateManifestWork | internal/sync/adapters/manifestwork.go:49-60 | Refused for an existing entry or an empty namespace; otherwise a new entry with the manifests and one empty configuration option |
| Reconcilers.SyncProgramIsRun | internal/sync/controller/sync_controller.go:48-67 | From any state of the whole system in which a sync has just started, letting only that sync go on is a run of the system and gives exactly the store that the program gives, every other Capp framed |
| Reconcilers.PlacementProgramIsRun | internal/placement/controller/placement_controller.go:65-108 | The same for the placement program |
| Decisions.ResolveIffProvenance | internal/placement/controller/placement_controller.go:89-158 | A cluster is the one a reconcile settles on exactly when: the site is no configured placement and is the cluster itself; or the site is a configured placement, or empty with the first configured placement standing in for it, and the cluster is the non-empty first entry past `local-cluster`, or the only entry, of the first decision list of that Placement in the configured namespace or else in `default` |
| Decisions.RequestedCluster | internal/placement/controller/placement_controller.go:89-90 | A site that no configured placement bears is the cluster itself |
| Decisions.RequestedPlacement | internal/placement/controller/placement_controller.go:137-158 | A configured placement fails exactly when its Placement does not exist, and is waited for exactly when it exists and nothing is decided |
| Decisions.DefaultPlacement | internal/placement/controller/placement_controller.go:139-141 | The same for a Capp without a site, by the first configured placement |
| Decisions.FirstPlacementDecides | internal/placement/controller/placement_controller.go:139-141 | For a Capp without a site only namespace and first placement of the configuration matter |
| Decisions.DecisionIff | internal/placement/adapters/placement.go:36-65 | A non-empty name is the decision exactly when it stands in the first list and, with two or more entries, is not `local-cluster` and has only `local-cluster` before it |
| Decisions.GetDecisionClusterName | internal/placement/adapters/placement.go:36-65 | The loop finds that decision, and returns the empty string exactly when there is none |
| Decisions.PickDecision | internal/placement/controller/placement_controller.go:137-158 | For the key made of the configured or default namespace and the site or first placement: an error when that Placement does not exist, no cluster when nothing is decided for it, otherwise a cluster decided for it |
| Assembly.AssemblyAllOrNothing | internal/sync/directors/capp.go:28-46 | Assembly succeeds exactly when every referenced ConfigMap and Secret exists in the Capp's namespace and the RoleBindings can be listed |
| Assembly.AssemblyExact | internal/sync/directors/capp.go:28-46 | The list is the Capp with its labels, annotations, specification, site and report, the Namespace, one ConfigMap per reference, one Secret per reference, the logs-reader Role, and a RoleBinding that refers to it and whose subjects are the namespace's log users, in that order and nothing else |
| Assembly.AssemblyLabelled | internal/sync/builders/core.go:13-44 | Every manifest carries the managed-by label and lives in the Capp's namespace |
| Assembly.SnapshotInsensitive | internal/sync/builders/core.go:13-32 | Capps that differ only in uid, version, deletion mark and finalizers assemble to the same list |
| Assembly.ContentShows | internal/sync/builders/core.go:13-32 | Conversely, equal lists mean equal specification, annotations and status, and equal labels but for the managed-by one |
| Assembly.AssembleManifests | internal/sync/directors/capp.go:28-46 | The director returns the whole list, or an empty list and an error; of the caller's data only the managed-by key of a non-nil label map changes |
| Assembly.BuildCapp | internal/sync/builders/core.go:13-32 | The built Capp keeps labels, annotations, specification and status and drops the rest of the metadata; a non-nil label map of the caller gains exactly the managed-by key |
| Assembly.CreateConfigMapManifests | internal/sync/directors/volumes.go:45-58 | One manifest per name in order, up to the end or to the first name that does not exist; an error exactly in the second case, returned with the manifests made so far |
| Assembly.CreateSecretManifests | internal/sync/directors/volumes.go:63-76 | The same for Secrets, with data and type |
| Assembly.AssembleVolumes | internal/sync/directors/volumes.go:25-40 | Succeeds exactly when every reference exists; ConfigMaps come before Secrets, and an error returns the ConfigMaps if all were found, else nothing |
| Assembly.AssembleAuth | internal/sync/directors/auth.go:25-38 | Role before RoleBinding, and the binding's subjects are the namespace's log users; an empty list and an error exactly when the RoleBindings cannot be listed |
| Assembly.GetUsersFromNamespace | internal/sync/directors/auth.go:57-75 | The names are, in order and with repetitions, the subjects of exactly the admin and logs-reader bindings; no names and an error exactly when the list fails |
| Assembly.GenerateSubjectsFromUsers | internal/sync/directors/auth.go:43-53 | One subject of kind User per name, in order |
| Assembly.LogUsersCounted | internal/sync/directors/auth.go:57-75 | A user occurs as often as there are subjects of that name in bindings of the roles admin and logs-reader |
| Assembly.LogUsersInOrder | internal/sync/directors/auth.go:66-73 | Binding by binding and subject by subject |
| References.ReferencesCounted | internal/sync/directors/volumes.go:80-141 | Each name occurs among the gathered ConfigMaps (Secrets) exactly as often as there are indices at which a configMapRef (secretRef) of envFrom, a configMapKeyRef (secretKeyRef) of valueFrom, a volume's ConfigMap (Secret) or an image pull secret is that name |
| References.ReferencesInOrder | internal/sync/directors/volumes.go:80-141 | All of envFrom comes first, then all of valueFrom, container by container, then the volumes and the image pull secrets |
| References.NestedRefsAppend | internal/sync/directors/volumes.go:80-110 | Gathering over concatenated container lists is the concatenation of the gathered names |
| References.RefsAppend | internal/sync/directors/volumes.go:114-124 | The same for volumes |
| References.GatherConfigEnvFrom | internal/sync/directors/volumes.go:80-92 | Both accumulators are kept as prefixes and followed by the references of envFrom |
| References.GatherConfigValueFrom | internal/sync/directors/volumes.go:96-110 | Both accumulators are kept as prefixes and followed by the references of valueFrom |
| References.GatherConfigVolumes | internal/sync/directors/volumes.go:114-124 | Both accumulators are kept as prefixes and followed by the references of the volumes |
| References.GetResourceVolumesFromContainerSpec | internal/sync/directors/volumes.go:128-141 | Every name occurs in the two returned lists as often as fields of the specification name it as a ConfigMap or as a Secret, in the order above |
| Names.CollisionIffShifted | internal/sync/adapters/manifestwork.go:43-45 | Two different Capps share a ManifestWork name exactly when one namespace is the other followed by `-s` and the shorter one's Capp name is `s-` followed by the other's |
| Names.CollisionFreeKeys | internal/sync/adapters/manifestwork.go:43-45 | Names are injective within one namespace and over namespaces without hyphens |
| Usernames.IsExcludedServiceAccount | internal/webhooks/mutator.go:110-116 | True exactly for usernames of the form a:b:rcs-deployer-system:d with colon-free a, b and d |
| Usernames.ExcludedIff | internal/webhooks/mutator.go:110-116 | What the split-based recogniser computes is that characterisation |
| Usernames.Split | internal/webhooks/mutator.go:111 | The loop computes the split that the two round trips below are about |
| Usernames.JoinSplit | internal/webhooks/mutator.go:111 | Joining a split gives the string back |
| Usernames.SplitJoin | internal/webhooks/mutator.go:111 | Splitting a join of separator-free parts gives the parts back |
| Usernames.ControllerIsExcluded | internal/webhooks/mutator.go:74-82 | The account both controllers write under is excluded |
| Admission.MutateResources | internal/webhooks/mutator.go:85-92 | On shared maps: however the lists share maps, each map ends with what the containers in order make of it; without sharing each list that existed has its old entries and the defaults for missing cpu and memory, and a list that did not exist still does not |
| Admission.UnaliasedResult | internal/webhooks/mutator.go:85-92 | The second half of that from the first: without sharing, a list is filled with its own defaults alone |
| Admission.MutateContainer | internal/webhooks/mutator.go:88-91 | The body of the loop, also when requests and limits are one map |
| Admission.SetResourceQuantity | internal/webhooks/mutator.go:95-107 | Existing entries stay, missing ones with a default are added in place; an absent list becomes a fresh one exactly when some default applies |
| Admission.MutateAnnotations | internal/webhooks/mutator.go:74-82 | The Capp's own annotation map, or a fresh one, gains the user's name unless the user is excluded; no other key changes |
| Admission.MutateIdempotent | internal/webhooks/mutator.go:85-107 | Defaulting a second time changes nothing |
| Admission.DefaultedIff | internal/webhooks/mutator.go:84-92 | The defaults end up present exactly when the list existed or there is no default for cpu and memory |
| Admission.AbsentRequestsStayAbsent | internal/webhooks/mutator.go:84-92 | A concrete list for which the documented defaulting does not happen |
| Admission.Handle | internal/webhooks/validator.go:49-78 | Allowed exactly when there is a configuration; the site is empty, or stands among the managed clusters or the configured placements; a changed hostname passes every check; and log settings, if any, are of type elastic with all four fields filled in |
| Admission.ValidateDomainName | internal/webhooks/common.go:52-86 | No error exactly when the hostname is empty or is fully qualified, matches no non-empty pattern, does not end in the cluster domain and is not taken; otherwise each failed check, and only it, has its own error |
| Admission.ValidateLogSpec | internal/webhooks/common.go:101-122 | Accepted exactly when the type is elastic and all four fields are filled in |
| Admission.FindMissingFields | internal/webhooks/common.go:125-139 | Exactly the required fields that are unknown or empty, in order and with repetitions |
| Admission.AdmitIff | internal/webhooks/mutator.go:68-71 | A write is admitted as a given object exactly when there is a configuration, the object passes the checks, and it is the request but for the recorded user and the resources: absent lists stay absent, existing lists keep their entries and gain the defaults of missing cpu and memory and nothing else; it is refused exactly when there is no such object |
| Admission.HeapIsStored | internal/webhooks/mutator.go:68-71 | What is read back from the maps that the mutator's two loops have written is what an admitted write stores |
| Admission.SharedListFilled | internal/webhooks/mutator.go:88-91 | When requests and limits of a container are one map, the requests' defaults come first |
| Admission.Admit | internal/webhooks/mutator.go:68-71 | An admitted write keeps everything but annotations and container resources, keeps the placement, and is valid as stored |

## Left out

- `cmd/main.go`, logging, event recording, metrics, charts, hack scripts and end-to-end tests: they hold no state the properties are about.
- Informer caches: a reconcile that acts on a stale read is not modelled, nor a list or event that arrives late.
- Real time: the delays of 2 and 20 seconds are "waits again".
- JSON decoding and patching, regular expressions, DNS and the FQDN check: only their answers appear. A pattern that is not a regular expression panics in the source and is not modelled.
- Copies made by the client library: after a by-value copy is passed to an update, the caller's copy is taken as unchanged; the sharing of decoded maps and slices between the two is modelled only for the label map in `BuildCapp`.
- Generated deep copies and API type registration: mechanical.
- Inputs on which the source panics: an empty placement list for a Capp without a site (a precondition of the programs, a step that is not possible in the step relation), and a nil decision list after a failed list call.
- Failing API calls other than the ones above: in the step relation any reconcile may fail at any point; the programs are modelled for calls that get an answer.
- `getManagedClusters`: its result is given as a list, empty when the call fails, as its caller treats it.
- Builders field by field: a manifest keeps kind, name, namespace, labels and payload; type metadata and the rules of the Role are constants.
- Finalizers are a set, so their order is not captured.
- ManifestWorks deleted or created by anybody but the sync controller.
- Placement annotations, cleanup finalizers and recorded sites written by users: the step relation excludes them.
- Guarantees.FinalizerGuardsDeployment: holds for runs in which no status write moves a placed Capp; without that it is false, as `Witness.UnstableResolutionOrphans` shows.
- Guarantees.SingleManifestWork: has the same condition, for the same reason.
- Guarantees.NoLostWork: needs steady references, as the source does not watch ConfigMaps, Secrets or RoleBindings, and that no sync adopts a ManifestWork that is being deleted, which `Guarantees.SystemLiveIff` shows to be exact.
- Convergence.Converges: excludes a placement reconcile in flight that has chosen by an outdated configuration or decision, or that is about to panic for want of a placement; reconciles do not fail in the quiet world but for conflicts, and the agents let go of all ManifestWorks being deleted in one move.
