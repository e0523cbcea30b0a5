# A verified model of the project operator

The project operator turns cluster-scoped `Project` resources into namespaces, role bindings and
(optionally) a cluster role binding. This project models that operator and everything around it, and
proves what it is meant to guarantee: over every run of the whole system, with any number of projects,
with users, other controllers and garbage collection acting between any two API calls, and with any
call failing or getting lost.

    dafny verify dfyconfig.toml

## How the model is built

Three layers, each tied to the next by proof.

**The world.** `Kubernetes.dfy` has the vocabulary. `ApiServer.dfy` is the API server: a store of
objects keyed by kind, namespace and name, resource versions bumped on every write, finalizers,
deletion marks, namespaces that terminate; the calls the operator makes (`Apply`), their fate (served,
reply lost, never served), and everything others may do (`Act`). `Ttl.dfy` is Go's 64-bit duration
arithmetic.

**The operator as a machine.** `Deployment.dfy` (the deployer), `Compilation.dfy` (spec to objects) and
`Controller.dfy` (the reconciler) say which call is pending and how the code goes on with the reply.
`Rounds.dfy` and `Exits.dfy` say outright, with the source's own names, texts and times, what stops a
deployer round and what a reconciliation reports and answers at each exit.
`Runs.dfy` puts any number of reconciliations (one at a time per project name) and everybody else into
one system and states the invariant; `Safety.dfy` proves that every step keeps it. On top of it,
`Guarantees.dfy` has what holds in every run, `History.dfy` what a Ready status rests on over the run that
led to it, and `Admission.dfy` what the webhook adds. For runs nobody interferes with, `Solo.dfy` shows that
a reconciliation alone with the server (a visit) is such a run and can always be completed,
`Convergence.dfy` how fast one deployer round after another brings a project in sync, and `Lifecycle.dfy`
how many visits make a project Ready, or let it go. `Company.dfy` carries this over to runs in which
everybody else goes on with whatever leaves the project and its keys alone, and shows that failing calls
lose nothing.

**The code.** `Conditions.ProjectStatus`, `Deployers.Deployer`, `Reconciler.ProjectReconciler` and
`Admission.ProjectWebhook` are the source's own classes: loops, maps and fields updated in place, early
returns, the deferred block. They talk to the API server through `Client.Cluster`, which lets others act
before every call and decides the call's fate. Each method is proved to take the machine from where it
stands to where it ends, call by call, so the guarantees hold of the code: a method that skipped a call,
swapped two values or took another branch would leave the machine's path. If nobody else is to act, a
call of `Reconcile` is exactly one completed visit, and if the others leave the project alone, it is a
completed visit in company; so the lifecycle results hold of the code as well: `Manager.Requeue` is the
code called again and again until the project is Ready.

| file of the repository | code | machine or specification |
|---|---|---|
| internal/deployer/deployer.go | `Deployer.dfy` | `Deployment.dfy` |
| internal/deployer/util.go | `Deployer.dfy` | `Kubernetes.dfy` (module `Names`) |
| controllers/project_controller.go | `Reconciler.dfy` | `Controller.dfy`, `Compilation.dfy`, `Ttl.dfy` |
| api/v1alpha1/project_types.go | `Conditions.dfy` | `Conditions.dfy` |
| webhooks/project_webhook.go | `Admission.dfy` | `Admission.dfy` |

## Assumptions

- Options are fixed, and the namespace prefix is not empty (main.go:76-79 refuses to start otherwise).
- Projects and the deployer's lists are read live, not from a cache (main.go:100-102,
  internal/deployer/deployer.go:31).
- Only the operator sets the owner label, removes its own finalizer and writes a project's status; others
  may do anything else to any project or object (`ApiServer.MayEdit`, `ApiServer.MayWrite`).
- The manager runs one reconciliation at a time per project name, and any number for different names.
- The SHA-256 digest, `time.ParseDuration` and the generic `Uniq` are abstract functions. Nothing is
  assumed of the digest or the parser; of `Uniq` only `Compilation.BuildGrants` assumes its contract (same elements, no duplicates).
- That garbage collection eventually runs on the namespaces a deleted project owned is a hypothesis of `Lifecycle.DeletedGoes`.
- kstatus is an abstract verdict on an object, and a terminating object is never Current.
- Finalizers are sets. A failing REST mapping counts as a failing list. Between two API calls there is one
  reading of the clock. Error and condition messages are shortened.
- After the update that adds or removes the finalizer, the project in hand is the server's reply, as the
  comment at controllers/project_controller.go:157-159 says.

## Where the documentation and the code differ

- README.md:66 promises that users allowed to update or delete the namespace may update or delete the
  project. The code asks the cluster about the verbs `PUT` and `DELETE` instead (webhooks/project_webhook.go:104,
  107, 139). `Admission.DocumentedVerbsNotConsulted` exhibits a user who is refused although the documented
  permission is there, and one who is let in without it; `Admission.DocumentationHoldsIff` says exactly when
  the webhook does what is documented.
- The comment on `State` (api/v1alpha1/project_types.go:80) lists four states; the code has a fifth,
  DeletionBlocked, which the model has, too.
- The comment at controllers/project_controller.go:102 says the parse error should not happen. It is right
  behind the webhook: `Admission.EveryTtlParses`.

## Model

| member | source | states |
|---|---|---|
| Names.ObjectKeyInjective | internal/deployer/util.go:20-33 | equal worklist keys mean equal group, kind, namespace and name, for kinds without dots and spaces, groups without spaces and names without slashes |
| Names.SlashInNameCollides | internal/deployer/util.go:20-33 | the condition on names is needed: a cluster-scoped name with a slash collides with a namespaced object of the same kind |
| Names.WorkKeyInjective | internal/deployer/util.go:30-33 | over all keys the API server can hold of the managed kinds the worklist key is injective, slashes in cluster-scoped names included |
| Deployment.ObjectionIsFirst | internal/deployer/deployer.go:69-97 | a call is rejected iff some desired object fails a check, and with the complaint of the first one that does |
| Deployment.JoinIsOuterJoin | internal/deployer/deployer.go:64-67 | the worklist is the full outer join of the listed and the desired objects by key, the last desired object winning |
| Deployment.StepCounted | internal/deployer/deployer.go:118-161 | at every step, for every item and reply, the counter of unready items is zero iff everything processed so far matches; a returned round without error answers true iff everything matches |
| Deployment.RoundVerdict | internal/deployer/deployer.go:111-161 | refinement: for every processing order and every replies, a round that ends without error answers true iff listing and desired objects have the same keys, equal digests and are all ready, and then it issued no call that could change anything |
| Rounds.RoundFailsIff | internal/deployer/deployer.go:52-161 | for every processing order and all replies: a round ends with an error e iff the first rejected object is rejected with e, a list call fails with e, a create or delete is answered with e other than not found, an update is answered with any e, or an object in step is broken with e |
| Rounds.EverythingWorkedOff | internal/deployer/deployer.go:118-161 | in every other round that ends, each item of the worklist has been worked off |
| Deployers.Deployer.EnterListing | internal/deployer/deployer.go:64-66 | entering a listing in any order gives the worklist overwritten by exactly the listed objects |
| Deployers.Deployer.Prepare | internal/deployer/deployer.go:70-109 | the checks in order, with the text of each complaint; a passing object keeps its own metadata and carries owner label and digest, set last |
| Deployers.Deployer.Join | internal/deployer/deployer.go:69-116 | the join loop ends with the first objection, or with every desired object joined into the listing |
| Deployers.Deployer.ListAll | internal/deployer/deployer.go:52-67 | the listing loop makes exactly the list calls of the machine, ends at the first failing one, and records every managed kind's scope |
| Deployers.Deployer.Process | internal/deployer/deployer.go:120-158 | an item gets exactly its call; the error is that of the reply, with not found suppressed after a create or delete and not after an update, or that of a broken object in step; without error the item counts as unready iff it is not there as desired, in good order and with the same digest |
| Deployers.Deployer.WorkOff | internal/deployer/deployer.go:118-161 | for any order of items: follows the machine to its return, and without error answers true iff every item matches |
| Deployers.Deployer.ReconcileObjects | internal/deployer/deployer.go:47-162 | follows the machine call by call to its return, whatever others do in between; without error the answer is true iff the listing is in sync with the desired objects |
| Compilation.BuildAccepted | controllers/project_controller.go:224-321 | every built object passes every check of the deployer, lies under a key of its project, keys are pairwise distinct, and the namespace comes first |
| Compilation.BuildGrants | controllers/project_controller.go:241-318 | in the project's namespace exactly the spec's admins hold the admin role and exactly its viewers the viewer role, nothing is granted in any other namespace, and the view role is granted everywhere to all of them iff cluster view is enabled, without duplicates |
| Compilation.OperatorMetadataWins | internal/deployer/deployer.go:92-109 | every object desired for a project is a built one with all its labels and annotations (on the namespace: those of the spec), except that owner label and digest annotation carry the project's UID and the digest of the object as built, whatever the spec says there |
| Compilation.BuildIsExact | controllers/project_controller.go:232-313 | the built objects one by one: the namespace prefix + name; "project:admin" in it iff there is an admin, "project:viewer" iff there is a viewer, each with its role and exactly the spec's users and groups in order; "project:" + name + ":view" iff cluster view is enabled and there is anybody; no other object |
| Compilation.KeysDisjoint | controllers/project_controller.go:232-313 | projects of different names never share an object key, under any specs |
| Compilation.DesiredBelongs | controllers/project_controller.go:232-239 | what the deployer desires for a project lies under the project's keys with the project's UID as owner, and the namespace is always desired while the project is not being deleted |
| Reconciler.ProjectReconciler.BuildDependentObjects | controllers/project_controller.go:224-321 | the imperative compiler, with its loops over users and groups, computes the specified object list, which has exactly the objects told, under their literal names |
| Conditions.ProjectStatus.SetCondition | api/v1alpha1/project_types.go:127-146 | the loop finds the type's first condition or appends one, and exactly that condition is touched |
| Conditions.ProjectStatus.SetReadyCondition | api/v1alpha1/project_types.go:149-152 | the Ready condition and the state change together and nothing else does: state, reason, status, message, and the transition time iff the status changed |
| Conditions.UpsertAt | api/v1alpha1/project_types.go:127-146 | the list after a call is the old list with the first entry of the type touched in place, or one entry appended |
| Conditions.HistoryCoherent | api/v1alpha1/project_types.go:127-146 | after any history of calls there is one condition for each type addressed and no other; it repeats the latest call of its type, and its transition time is the time of the latest call that changed the status |
| Conditions.WithReadyCoherent | api/v1alpha1/project_types.go:149-152 | setting the Ready condition keeps the status coherent: one Ready condition whose reason is the state and whose status is True, False, Unknown for Ready, Error and the rest |
| Ttl.MeasureGauges | controllers/project_controller.go:99-118 | without the annotation initial, remaining and expired are 0; a TTL that does not parse counts as zero; otherwise initial is the TTL and remaining the rest of it rounded to seconds, expired 1 iff overrun by at least half a second; the creation time in whole seconds in each case |
| Ttl.TtlGauges | controllers/project_controller.go:99-113 | the remaining gauge is creation + ttl - now rounded to seconds, halves away from zero, unless within a second of the 64-bit range; the expired gauge is 1 iff the TTL is overrun by at least half a second, without exception |
| Ttl.RoundSecondExact | controllers/project_controller.go:105-106 | the 64-bit rounding is mathematical rounding, halves away from zero, except within a second of the range |
| Ttl.ExpiredForGood | controllers/project_controller.go:106-113 | once expired a project stays expired as time advances |
| Client.Cluster.Perform | controllers/project_controller.go:81-135 | a call of the operator is a run of the system: others act, the pending call meets its fate, the reconciliation goes on with the reply, and the invariant is kept; with nobody else to act it is one step of a drive |
| Client.ReachesReachable | controllers/project_controller.go:73-214 | whatever the operator's code makes of a reachable system is reachable, so that the guarantees below apply |
| Reconciler.ProjectReconciler.Watch | controllers/project_controller.go:99-119 | the gauges tell the TTL as above (zero and not expired without one), and a TTL that does not parse is added to the error, and nothing else is |
| Reconciler.ProjectReconciler.Publish | controllers/project_controller.go:95-126 | a project marked and without the operator's finalizer has no series left; of any other the gauges tell the TTL and the error counter is one higher iff the deferred block began with an error; no other name's series change |
| Reconciler.ProjectReconciler.Report | controllers/project_controller.go:130-138 | the status written is stamped with generation and time, an error turns it into Error with its text as message, and a failing write is added to the error and clears the result |
| Reconciler.ProjectReconciler.Defer | controllers/project_controller.go:94-139 | the deferred block takes every exit to the answer the machine gives, and the answer is quiet only if the project is gone |
| Reconciler.ProjectReconciler.CreateOrUpdate | controllers/project_controller.go:151-181 | persists the finalizer before anything is created, and asks to come again at once |
| Reconciler.ProjectReconciler.Sync | controllers/project_controller.go:163-181 | compiles and deploys, and answers Ready for ten minutes, Processing for one second, or the error and no requeue time |
| Reconciler.ProjectReconciler.Remove | controllers/project_controller.go:187-213 | deletes what is owned and answers Deleting for one second or the error; lets go of the finalizer only after an empty listing |
| Reconciler.ProjectReconciler.Release | controllers/project_controller.go:197-206 | removes the operator's finalizer if it is there, and skips the status write only after a successful update |
| Reconciler.ProjectReconciler.Handle | controllers/project_controller.go:141-213 | the five-way split: first seen (Processing, again at once), finalizer, deployed, blocked by foreign finalizers (DeletionBlocked for ten seconds, nothing changed), removed |
| Reconciler.ProjectReconciler.Fetch | controllers/project_controller.go:77-87 | a missing project ends the call quietly, any other get error ends it with that error |
| Reconciler.ProjectReconciler.Work | controllers/project_controller.go:81-214 | from the fetch to the answer the code follows the machine; without others it is one drive; gauges and error counters are as the deferred block leaves them, and untouched if the fetch ended the call |
| Reconciler.ProjectReconciler.Reconcile | controllers/project_controller.go:73-214 | one call is a run of the system that takes this project's reconciliation from its start to the answer returned, and with nobody else to act one completed visit; among others who leave the project alone, a completed visit in company; an answer without error and without requeue means that the project is gone; the project's gauges and error counter are those of the TTL arithmetic and of the error, or dropped, and all others are untouched; an error the deferred block began with is in the answer |
| Exits.StepGoesOn | controllers/project_controller.go:73-214 | every exit, in every system and whatever becomes of the call: the state, reason, message, observed generation and time a step is about to report, and the result and error it is about to answer; an error of the body clears the requeue time, a TTL that does not parse alone turns the state into Error and leaves it |
| Exits.EveryCallTold | controllers/project_controller.go:81-213 | in every reachable system the pending call is the fetch by name, an update of the project that adds or removes exactly the finalizer, a call of the deployer as below, or the write of the status reported |
| Exits.WritePersists | controllers/project_controller.go:130-138 | a status write persists exactly the status reported, or nothing, and is answered without error only if it persists |
| Exits.VisitTells | controllers/project_controller.go:141-213 | what a whole visit persists and answers, for every project: first sight Processing; deletion mark and foreign finalizer DeletionBlocked, no object changed; no finalizer yet, the finalizer and nothing else; otherwise one deployer round decides between Ready, Processing, Deleting, Error and gone, each with its message and requeue time |
| Runs.EnvironmentKeeps | controllers/project_controller.go:73-214 | whatever users, controllers and garbage collection do keeps the invariant, including what reconciliations in flight know |
| Safety.AdvanceKeeps | controllers/project_controller.go:73-214 | every step of every reconciliation, with any fate of its call, keeps the invariant |
| Safety.RunKeeps | controllers/project_controller.go:73-214 | every run keeps the invariant |
| Guarantees.NoOrphans | controllers/project_controller.go:151-213 | in every reachable state an object owned by a UID has exactly one owner: an existing project with that UID, with the operator's finalizer, and the only name that can generate the object's key |
| Guarantees.NoLeftovers | controllers/project_controller.go:232-313 | a project re-created under an old name never meets owned objects of the earlier UID |
| History.ReadyIsTruthful | controllers/project_controller.go:168-176 | over every run: a persisted Ready for the current generation is the very status that an accepted write of a reconciliation of this project persisted, and that write rests on a listing whose keys and digests are exactly those built from the current spec; every object in it was owned and ready, and was held by the server exactly so at some moment while that reconciliation was under way |
| History.EverythingAccounted | internal/deployer/deployer.go:52-67 | over every run: whatever a reconciliation has in hand as listed was held by the server, exactly so, since that reconciliation began, and every report that rests on a listing has such a history |
| Guarantees.StatusIsCoherent | controllers/project_controller.go:130-135 | every persisted status is coherent and never ahead of the generation |
| Guarantees.Isolation | internal/deployer/deployer.go:119-148 | whatever a step changes or deletes is at that moment exactly the version it listed as its own, and whatever it creates is its own and was absent |
| Guarantees.SendsWhatWasBuilt | internal/deployer/deployer.go:52-148 | in every reachable system a deployer round lists the three kinds in turn by the owner label; then it creates what is built and not listed, deletes what is listed and not built and role bindings that show another digest, updates anything else that does to what is built, each under its listed version, and calls nothing for the rest |
| Guarantees.NamespaceIsSafe | internal/deployer/deployer.go:127-148 | while the project as read is not being deleted, no step of its reconciliation deletes a namespace, or leaves one terminating that was not |
| Guarantees.ReadingDooms | controllers/project_controller.go:151-182 | reading a deletion mark dooms the project's UID |
| Guarantees.DeletionIsOneWay | controllers/project_controller.go:182-213 | from then on, in every run, no object becomes owned by that UID |
| Guarantees.DoomedOnlyDeleted | controllers/project_controller.go:182-189 | and the operator's own steps only mark or remove its objects, only in a reconciliation that saw no foreign finalizer |
| Guarantees.NoLostWakeups | controllers/project_controller.go:81-139 | over all exits, rewritten errors included, a reconciliation ends without error and without asking to be run again only if no project of its name is in the store |
| Convergence.BuildIsProjectJob | controllers/project_controller.go:224-321 | the built list meets everything convergence needs, for every spec |
| Convergence.RankZero | internal/deployer/deployer.go:118-161 | the rank is zero iff no key of the project has a gap |
| Convergence.RoundConverges | internal/deployer/deployer.go:118-161 | with every call served and nothing in the way, for every processing order: no error, true iff the rank was zero and then nothing changed, otherwise every gap and the rank shrink |
| Convergence.ThirdRoundIsOk | internal/deployer/deployer.go:118-161 | the third round at the latest answers true |
| Convergence.AbortedRoundIsSafe | internal/deployer/deployer.go:119-159 | wherever a round is cut short and whatever calls fail or get lost, no gap and no rank has grown, and rounds still converge from there |
| Lifecycle.DriveDeploy | controllers/project_controller.go:168-189 | a reconciliation that ends makes one complete deployer round and goes on with its answer |
| Solo.DriveIsRun | controllers/project_controller.go:73-214 | a reconciliation driven alone is a run of the system in which only it takes steps |
| Solo.VisitIsRun | controllers/project_controller.go:73-214 | a completed visit is a run of the system, from the manager's request to the answer |
| Solo.DriveEnds | controllers/project_controller.go:73-214 | from any point of a reconciliation some processing order carries it to its end |
| Lifecycle.Progress | controllers/project_controller.go:141-181 | each undisturbed reconciliation shrinks first sight + finalizer + rounds left; with nothing left it reports Ready |
| Lifecycle.ReadyWithinFive | controllers/project_controller.go:141-181 | five undisturbed reconciliations make any live project Ready for its generation with all its objects in place |
| Lifecycle.UnhinderedIsLive | controllers/project_controller.go:141-181 | in every reachable state a project with a TTL that parses, whose own objects are healthy and whose keys nobody else holds, is live, whatever its spec |
| Lifecycle.FreshIsLive | controllers/project_controller.go:141-181 | in particular a new project none of whose keys is taken |
| Lifecycle.EditedReadyWithinThree | controllers/project_controller.go:151-181 | after any edit of such a project that was seen and has its finalizer, three undisturbed reconciliations make it Ready for the new spec with exactly the new objects in place |
| Lifecycle.LeavingStep | controllers/project_controller.go:141-213 | an undisturbed reconciliation of a deleted project marks it seen, or lets it go if nothing is owned, or leaves only terminating namespaces; a TTL that does not parse only turns the reported state from Deleting to Error |
| Lifecycle.DeletedGoes | controllers/project_controller.go:141-213 | a deleted project without foreign finalizers, whose objects nobody else holds, is gone two undisturbed reconciliations later (three if it was never seen), once the namespaces it owned have been collected before the last |
| Company.AloofElsewhere | controllers/project_controller.go:224-321 | every step that does not concern the project of a name or its four keys, other projects' reconciliations with any fate included, leaves the project and everything under its keys unchanged |
| Company.OnWayElsewhere | internal/deployer/deployer.go:47-162 | such a step leaves a reconciliation of the project on its way, wherever it stands |
| Company.OwnStepOnWay | controllers/project_controller.go:141-181 | a step of the reconciliation keeps it on its way, whatever becomes of its call |
| Company.ReadyInCompany | controllers/project_controller.go:141-181 | in every run in which the others leave the project alone and its own calls do not fail, however the steps interleave: every completed visit brings a live project one step closer, and after five it is Ready with all its objects in place and stays so |
| Company.FailingVisitsAreSafe | controllers/project_controller.go:141-181 | however the calls of any number of visits fail or get lost and wherever the last is cut, a live project stays live and no more is left to do than before |
| Company.FailingDeletionsAreSafe | controllers/project_controller.go:182-213 | however the calls of any number of visits to a deleted project fail or get lost and wherever the last is cut, it stays leaving until it owns nothing, and what it owns only shrinks |
| Manager.Requeue | controllers/project_controller.go:73-214 | the code called five times makes any live project Ready, as long as the others leave it alone and its calls do not fail; each call before that brings it one step closer |
| Manager.RequeueCollected | controllers/project_controller.go:187-206 | once a deleted project owns nothing any more, the next call of the code lets it go |
| Manager.RequeueDeleted | controllers/project_controller.go:73-214 | with nobody else to act, the code called once (twice if the project was never seen) deletes everything a deleted project owns that nobody else holds |
| Admission.ProjectWebhook.Validate | webhooks/project_webhook.go:79-87 | passes iff the TTL annotation, if any, parses |
| Admission.ProjectWebhook.Authorize | webhooks/project_webhook.go:89-151 | passes iff the request is there and creates or connects, or its author is a service account, an admin user or in an admin group, or the access review allows exactly this UID, user and groups the verb `PUT` or `DELETE` on the namespace prefix + name |
| Admission.ReviewsItsNamespace | webhooks/project_webhook.go:129-148 | anybody else than those passes iff the review allows the verb on the one namespace that is built for the project |
| Admission.ProjectWebhook.ValidateUpdate | webhooks/project_webhook.go:63-71 | passes iff the new project is valid and the request is there and cleared against the old project |
| Admission.ProjectWebhook.ValidateDelete | webhooks/project_webhook.go:73-77 | passes iff the request is there and cleared against the project |
| Admission.ProjectWebhook.Consult | webhooks/project_webhook.go:53-77 | the decisions of the three validators on any action are those the runs below are built on |
| Admission.EveryTtlParses | webhooks/project_webhook.go:53-87 | over every run behind the webhook, from the start, the TTL of every stored project and of every project in flight parses, so the controller's parse-error branch is dead |
| Admission.OutsidersChangeNothing | webhooks/project_webhook.go:63-151 | over every run, attempts to update or delete a project by identities it does not entitle never change its spec, annotations, foreign finalizers, generation or deletion mark, whatever they try to write and however everything else interleaves |
| Admission.FirstChangeIsByInsider | webhooks/project_webhook.go:63-71 | the first attempt that changes a project (nothing before it does, and it does) is by someone the project entitled to it before the run |
| Admission.DocumentedVerbsNotConsulted | webhooks/project_webhook.go:103-108 | a user allowed exactly the documented verbs is refused, and one allowed exactly the verbs asked for is let in |
| Admission.RequestAsDocumentedIff | webhooks/project_webhook.go:95-148 | on a single request, code and documentation agree iff the author is exempt or the cluster answers the verb asked for like the documented one |
| Admission.DocumentationHoldsIff | webhooks/project_webhook.go:95-148 | the webhook does what the documentation says on every project iff the cluster answers `PUT` like update and `DELETE` like delete for every identity other than service accounts |

## Left out

- Generated and registration code (pkg/client, deep copies, group version), main.go, manager setup, event
  filters, leader election, logging and flags: plumbing.
- JSON encoding, SHA-256, REST mapping, unstructured conversion, kstatus internals and duration parsing:
  foreign code, abstract here; their error returns other than those of the calls above are not modelled.
- Manual drift that leaves the digest annotation and the readiness untouched: the code does not look at
  anything else (internal/deployer/deployer.go:134), so nothing is claimed about it.
- Finalizers as an ordered list with repetitions: they are a set here.
- The texts of errors and conditions beyond what is needed to tell them apart.
- Wall-clock scheduling and back-off: being asked to run again is not modelled as happening at a time.
  Progress is about reconciliations whose calls do not fail and whose project and keys nobody else touches,
  as the source can only promise those; safety is about all runs.
- The Prometheus registry: only the values set and dropped by the deferred block. A project deleted before
  it gets its finalizer leaves through the not-found exit, which drops no series, so none is claimed to.
- Restarting the operator with other options.
- Admission warnings, and what admission requests look like on the wire.
