/** controllers/project_controller.go as a machine: the pending call of a Reconcile, and how it goes
    on with the reply. Class ProjectReconciler (Reconciler.dfy) is the code itself and follows this
    machine call by call. */
module Controller {
  import opened Kubernetes
  import opened ApiServer
  import opened Conditions
  import opened Deployment
  import opened Compilation

  /** ctrl.Result; requeueAfter in seconds. */
  datatype Result = Result(requeue: bool, requeueAfter: nat)

  const Nothing := Result(false, 0)

  /** controller-runtime forgets the request exactly then. */
  predicate Quiet(result: Result, err: Error) {
    result == Nothing && err == NoError
  }

  /** basis is the joined listing a Ready status rests on. */
  datatype Phase =
    | Fetching
    | AddingFinalizer(project: Project)
    | Deploying(project: Project, d: Deploy)
    | RemovingFinalizer(project: Project)
    | Reporting(project: Project, result: Result, err: Error, basis: Option<Worklist>)
    | Done(result: Result, err: Error)

  /** One Reconcile in flight; now is the instant at which it began. */
  datatype Local = Local(now: int, phase: Phase)

  const ParseError := Error("time: invalid duration")

  /** The deferred block watches the TTL as long as the project is not on its way out. */
  predicate Watched(p: Project) {
    !p.deleting || ProjectFinalizer in p.finalizers
  }

  predicate TtlBroken(lib: Library, p: Project) {
    AnnotationKeyTTL in p.annotations && lib.parseDuration(p.annotations[AnnotationKeyTTL]).None?
  }

  /** The error as the deferred block rewrites it. */
  function Checked(c: Config, p: Project, err: Error): Error {
    if Watched(p) && TtlBroken(c.lib, p) then Aggregate(err, ParseError) else err
  }

  /** The status the deferred block is about to write. */
  function Observed(s: Status, generation: int, now: int, err: Error, clock: int): Status {
    var st := s.(observedGeneration := generation, lastObservedAt := Some(now));
    if err.Error? then WithReady(st, False, ErrorState, err.text, clock) else st
  }

  /** Every exit with a status update. */
  function Leave(c: Config, now: int, clock: int, p: Project, result: Result, err: Error,
                 basis: Option<Worklist>): Phase {
    var e := Checked(c, p, err);
    Reporting(p.(status := Observed(p.status, p.generation, now, e, clock)), result, e, basis)
  }

  function Noted(p: Project, status: ConditionStatus, state: State, message: string, clock: int): Project {
    p.(status := WithReady(p.status, status, state, message, clock))
  }

  function AfterDeploy(c: Config, now: int, clock: int, p: Project, ok: bool, err: Error, w: Worklist): Phase {
    if !p.deleting then
      if err != NoError then
        Leave(c, now, clock, p, Nothing, Wrap(err, "error reconciling dependent resources"), None)
      else if ok then
        Leave(c, now, clock, Noted(p, True, Ready, "Dependent resources successfully reconciled", clock),
              Result(false, 600), NoError, Some(w))
      else
        Leave(c, now, clock, Noted(p, Unknown, Processing, "Reconcilation of dependent resources triggered", clock),
              Result(false, 1), NoError, None)
    else
      if err != NoError then
        Leave(c, now, clock, p, Nothing, Wrap(err, "error deleting dependent resources"), None)
      else if ok then
        if ProjectFinalizer in p.finalizers then RemovingFinalizer(p) else Done(Nothing, Checked(c, p, NoError))
      else
        Leave(c, now, clock, Noted(p, Unknown, Deleting, "Deletion of dependent resources triggered", clock),
              Result(false, 1), NoError, None)
  }

  /** Goes on with a deployer call that may have returned. */
  function Enter(c: Config, now: int, clock: int, p: Project, d: Deploy): Phase {
    if d.Returned? then AfterDeploy(c, now, clock, p, d.ok, d.err, d.worklist) else Deploying(p, d)
  }

  function AfterFetch(c: Config, now: int, clock: int, read: Project): Phase {
    if read.status.observedGeneration <= 0 then
      Leave(c, now, clock, Noted(read, Unknown, Processing, "First seen", clock), Result(true, 0), NoError, None)
    else
      var p := read.(status := read.status.(namespace := NamespaceName(c, read.name)));
      if !p.deleting then
        if ProjectFinalizer !in p.finalizers then AddingFinalizer(p)
        else Enter(c, now, clock, p, Start(JobFor(c, p)))
      else if p.finalizers - {ProjectFinalizer} != {} then
        Leave(c, now, clock, Noted(p, Unknown, DeletionBlocked, "Deletion blocked due to existing foreign finalizers",
                                   clock),
              Result(false, 10), NoError, None)
      else Enter(c, now, clock, p, Start(JobFor(c, p)))
  }

  function WithFinalizer(p: Project): Project {
    p.(finalizers := p.finalizers + {ProjectFinalizer})
  }

  function WithoutFinalizer(p: Project): Project {
    p.(finalizers := p.finalizers - {ProjectFinalizer})
  }

  function PendingCall(c: Config, name: string, l: Local, pick: string): Option<Call> {
    match l.phase
    case Fetching => Some(GetProject(name))
    case AddingFinalizer(p) => Some(UpdateProject(WithFinalizer(p)))
    case Deploying(p, d) => DeployCall(JobFor(c, p), d, pick)
    case RemovingFinalizer(p) => Some(UpdateProject(WithoutFinalizer(p)))
    case Reporting(p, _, _, _) => Some(UpdateStatus(p))
    case Done(_, _) => None
  }

  function ResumePhase(c: Config, now: int, clock: int, phase: Phase, pick: string, reply: Reply): Phase {
    match phase
    case Fetching =>
      if reply.GotProject? then AfterFetch(c, now, clock, reply.project)
      else if reply.NotFound? then Done(Nothing, NoError)
      else Done(Nothing, Wrap(ErrorOf(reply), "unexpected get error"))
    case AddingFinalizer(p) =>
      if reply.GotProject? then Leave(c, now, clock, reply.project, Result(true, 0), NoError, None)
      else Leave(c, now, clock, WithFinalizer(p), Nothing, Wrap(ErrorOf(reply), "error adding finalizer"), None)
    case Deploying(p, d) => Enter(c, now, clock, p, DeployStep(JobFor(c, p), d, pick, reply))
    case RemovingFinalizer(p) =>
      if reply.GotProject? then Done(Nothing, Checked(c, reply.project, NoError))
      else Leave(c, now, clock, WithoutFinalizer(p), Nothing, Wrap(ErrorOf(reply), "error removing finalizer"), None)
    case Reporting(_, result, err, _) =>
      if ErrorOf(reply) == NoError then Done(result, err) else Done(Nothing, Aggregate(err, ErrorOf(reply)))
    case Done(_, _) => phase
  }

  function Resume(c: Config, l: Local, clock: int, pick: string, reply: Reply): Local {
    l.(phase := ResumePhase(c, l.now, clock, l.phase, pick, reply))
  }

  /** The replies a server gives to a call. */
  predicate Answers(call: Option<Call>, reply: Reply) {
    match call
    case Some(GetProject(n)) => (reply.GotProject? && reply.project.name == n) || reply.NotFound? || reply.Failed?
    case Some(UpdateProject(p)) =>
      (reply.GotProject? && reply.project.name == p.name) || reply.NotFound? || reply.Failed?
    case Some(List(_, _, _)) => reply.Listed? || reply.Failed?
    case _ => reply.Accepted? || reply.NotFound? || reply.Failed?
  }

  lemma ServeAnswers(s: Server, call: Call, fate: Fate)
    requires ProjectsOk(s)
    ensures Answers(Some(call), Serve(s, call, fate).1)
  {
  }
}
