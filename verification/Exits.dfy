/** What a reconciliation reports and answers at each of its exits, with the states, messages and requeue
    times of controllers/project_controller.go: for every step of every run, and for a whole visit. */
module Exits {
  import opened Kubernetes
  import opened ApiServer
  import opened Conditions
  import opened Deployment
  import opened Compilation
  import opened Controller
  import opened Runs
  import opened Safety
  import opened Guarantees
  import opened Solo
  import opened Convergence
  import opened Lifecycle

  /** The error once another one has joined it; equal ones are told once. */
  function Also(err: Error, text: string): Error {
    match err
    case NoError => Error(text)
    case Error(first) => if first == text then err else Error("[" + first + ", " + text + "]")
  }

  /** The error as it is reported: a TTL that does not parse joins it, unless the operator has let the
      project go. */
  function FinalError(c: Config, p: Project, err: Error): Error {
    if p.deleting && "project-operator.cs.sap.com" !in p.finalizers then err
    else if "cs.sap.com/ttl" !in p.annotations then err
    else if c.lib.parseDuration(p.annotations["cs.sap.com/ttl"]) == None then Also(err, "time: invalid duration")
    else err
  }

  lemma CheckedIsFinal(c: Config, p: Project, err: Error)
    ensures Checked(c, p, err) == FinalError(c, p, err)
  {
  }

  /** The reconciliation is about to write the status of p, with noted as noted so far, stamped with
      generation and time; an error turns it into Error, with the error's text. */
  ghost predicate Leaves(c: Config, now: int, clock: int, p: Project, noted: Status, result: Result, err: Error,
                         basis: Option<Worklist>, phase: Phase) {
    && phase.Reporting? && phase.result == result && phase.err == FinalError(c, p, err) && phase.basis == basis
    && phase.project == p.(status := phase.project.status)
    && var st := phase.project.status;
    var stamped := noted.(observedGeneration := p.generation, lastObservedAt := Some(now));
    match phase.err
    case NoError => st == stamped
    case Error(text) => Notes(st, stamped, ErrorState, "Error", False, text, clock)
  }

  /** Leaves, after noting a state. */
  ghost predicate LeavesNoting(c: Config, now: int, clock: int, p: Project, state: State, reason: string,
                               status: ConditionStatus, message: string, result: Result, basis: Option<Worklist>,
                               phase: Phase) {
    exists noted ::
      && Notes(noted, p.status, state, reason, status, message, clock)
      && Leaves(c, now, clock, p, noted, result, NoError, basis, phase)
  }

  lemma LeaveLeaves(c: Config, now: int, clock: int, p: Project, result: Result, err: Error, basis: Option<Worklist>)
    ensures Leaves(c, now, clock, p, p.status, result, err, basis, Leave(c, now, clock, p, result, err, basis))
  {
    CheckedIsFinal(c, p, err);
    var e := Checked(c, p, err);
    if e.Error? {
      WithReadyNotes(p.status.(observedGeneration := p.generation, lastObservedAt := Some(now)), False, ErrorState,
                     e.text, clock);
    }
  }

  lemma NotedLeaves(c: Config, now: int, clock: int, p: Project, state: State, status: ConditionStatus,
                    message: string, result: Result, basis: Option<Worklist>)
    ensures LeavesNoting(c, now, clock, p, state, state.Text(), status, message, result, basis,
                         Leave(c, now, clock, Noted(p, status, state, message, clock), result, NoError, basis))
  {
    hide Leave, WithReady, Leaves;
    var q := Noted(p, status, state, message, clock);
    WithReadyNotes(p.status, status, state, message, clock);
    LeaveLeaves(c, now, clock, q, result, NoError, basis);
    SameLeaves(c, now, clock, q, p, q.status, result, NoError, basis, Leave(c, now, clock, q, result, NoError, basis));
  }

  /** What is left with does not depend on the status in hand, only on what is noted. */
  lemma SameLeaves(c: Config, now: int, clock: int, q: Project, p: Project, noted: Status, result: Result, err: Error,
                   basis: Option<Worklist>, phase: Phase)
    requires Leaves(c, now, clock, q, noted, result, err, basis, phase) && q == p.(status := q.status)
    ensures Leaves(c, now, clock, p, noted, result, err, basis, phase)
  {
    hide Notes;
  }

  function TextOf(reply: Reply): string {
    if reply.Failed? then reply.text else "not found"
  }

  /** After the fetch: seen for the first time; to get its finalizer; held by others; or to be deployed or
      deleted. */
  ghost predicate AfterRead(c: Config, now: int, clock: int, read: Project, phase: Phase) {
    var p := read.(status := read.status.(namespace := c.namespacePrefix + read.name));
    if read.status.observedGeneration <= 0 then
      LeavesNoting(c, now, clock, read, Processing, "Processing", Unknown, "First seen", Result(true, 0), None, phase)
    else if !read.deleting && "project-operator.cs.sap.com" !in read.finalizers then
      phase == AddingFinalizer(p)
    else if read.deleting && exists f :: f in read.finalizers && f != "project-operator.cs.sap.com" then
      LeavesNoting(c, now, clock, p, DeletionBlocked, "DeletionBlocked", Unknown,
                   "Deletion blocked due to existing foreign finalizers", Result(false, 10), None, phase)
    else
      phase == Deploying(p, Start(JobFor(c, p)))
  }

  /** After the round of a project that is not being deleted. */
  ghost predicate AfterSync(c: Config, now: int, clock: int, p: Project, ok: bool, err: Error, w: Worklist,
                            phase: Phase)
  {
    match err
    case Error(text) =>
      Leaves(c, now, clock, p, p.status, Result(false, 0), Error("error reconciling dependent resources" + ": " + text),
             None, phase)
    case NoError =>
      if ok then
        LeavesNoting(c, now, clock, p, Ready, "Ready", True, "Dependent resources successfully reconciled",
                     Result(false, 600), Some(w), phase)
      else
        LeavesNoting(c, now, clock, p, Processing, "Processing", Unknown,
                     "Reconcilation of dependent resources triggered",
                     Result(false, 1), None, phase)
  }

  /** After the round of a project that is being deleted; ok means that nothing is left. */
  ghost predicate AfterDeletion(c: Config, now: int, clock: int, p: Project, ok: bool, err: Error, phase: Phase) {
    match err
    case Error(text) =>
      Leaves(c, now, clock, p, p.status, Result(false, 0), Error("error deleting dependent resources" + ": " + text),
             None, phase)
    case NoError =>
      if !ok then
        LeavesNoting(c, now, clock, p, Deleting, "Deleting", Unknown,
                     "Deletion of dependent resources triggered",
                     Result(false, 1), None, phase)
      else if "project-operator.cs.sap.com" in p.finalizers then phase == RemovingFinalizer(p)
      else phase == Done(Result(false, 0), NoError)
  }

  /** Where the reconciliation l goes with a reply. */
  ghost predicate GoesOn(c: Config, l: Local, clock: int, pick: string, reply: Reply, phase: Phase) {
    var now := l.now;
    match l.phase
    case Fetching =>
      if reply.GotProject? then AfterRead(c, now, clock, reply.project, phase)
      else if reply.NotFound? then phase == Done(Result(false, 0), NoError)
      else phase == Done(Result(false, 0), Error("unexpected get error" + ": " + TextOf(reply)))
    case AddingFinalizer(p) =>
      if reply.GotProject? then
        Leaves(c, now, clock, reply.project, reply.project.status, Result(true, 0), NoError, None, phase)
      else
        Leaves(c, now, clock, p.(finalizers := p.finalizers + {"project-operator.cs.sap.com"}), p.status,
               Result(false, 0), Error("error adding finalizer" + ": " + TextOf(reply)), None, phase)
    case Deploying(p, d) =>
      var e := DeployStep(JobFor(c, p), d, pick, reply);
      if !e.Returned? then phase == Deploying(p, e)
      else if !p.deleting then AfterSync(c, now, clock, p, e.ok, e.err, e.worklist, phase)
      else AfterDeletion(c, now, clock, p, e.ok, e.err, phase)
    case RemovingFinalizer(p) =>
      if reply.GotProject? then phase == Done(Result(false, 0), FinalError(c, reply.project, NoError))
      else
        Leaves(c, now, clock, p.(finalizers := p.finalizers - {"project-operator.cs.sap.com"}), p.status,
               Result(false, 0), Error("error removing finalizer" + ": " + TextOf(reply)), None, phase)
    case Reporting(_, result, err, _) =>
      if reply.NotFound? || reply.Failed? then phase == Done(Result(false, 0), Also(err, TextOf(reply)))
      else phase == Done(result, err)
    case Done(_, _) => phase == l.phase
  }

  lemma StatesTold()
    ensures Processing.Text() == "Processing" && DeletionBlocked.Text() == "DeletionBlocked"
    ensures State.Ready.Text() == "Ready" && Deleting.Text() == "Deleting" && ErrorState.Text() == "Error"
  {
  }

  lemma ReadExits(c: Config, now: int, clock: int, read: Project)
    ensures AfterRead(c, now, clock, read, AfterFetch(c, now, clock, read))
  {
    hide LeavesNoting, Leave, Noted, JobFor;
    StatesTold();
    var p := read.(status := read.status.(namespace := NamespaceName(c, read.name)));
    NotedLeaves(c, now, clock, read, Processing, Unknown, "First seen", Result(true, 0), None);
    NotedLeaves(c, now, clock, p, DeletionBlocked, Unknown, "Deletion blocked due to existing foreign finalizers",
                Result(false, 10), None);
    assert p.finalizers - {ProjectFinalizer} != {} <==> exists f :: f in read.finalizers && f != ProjectFinalizer by {
      if f :| f in read.finalizers && f != ProjectFinalizer {
        assert f in p.finalizers - {ProjectFinalizer};
      }
    }
    assert !Start(JobFor(c, p)).Returned? by {
      StartLists(c, p);
    }
  }

  lemma StartLists(c: Config, p: Project)
    ensures Start(JobFor(c, p)) == Listing(0, map[])
  {
  }

  lemma SyncExits(c: Config, now: int, clock: int, p: Project, ok: bool, err: Error, w: Worklist)
    requires !p.deleting
    ensures AfterSync(c, now, clock, p, ok, err, w, AfterDeploy(c, now, clock, p, ok, err, w))
  {
    hide LeavesNoting, Leaves, Leave, Noted;
    StatesTold();
    if err.Error? {
      LeaveLeaves(c, now, clock, p, Result(false, 0), Error("error reconciling dependent resources" + ": " + err.text),
                  None);
      WrapTells(err, "error reconciling dependent resources");
    } else if ok {
      NotedLeaves(c, now, clock, p, Ready, True, "Dependent resources successfully reconciled", Result(false, 600),
                  Some(w));
    } else {
      NotedLeaves(c, now, clock, p, Processing, Unknown, "Reconcilation of dependent resources triggered",
                  Result(false, 1), None);
    }
  }

  lemma DeletionExits(c: Config, now: int, clock: int, p: Project, ok: bool, err: Error, w: Worklist)
    requires p.deleting
    ensures AfterDeletion(c, now, clock, p, ok, err, AfterDeploy(c, now, clock, p, ok, err, w))
  {
    hide LeavesNoting, Leaves, Leave, Noted;
    StatesTold();
    if err.Error? {
      LeaveLeaves(c, now, clock, p, Result(false, 0), Error("error deleting dependent resources" + ": " + err.text),
                  None);
      WrapTells(err, "error deleting dependent resources");
    } else if !ok {
      NotedLeaves(c, now, clock, p, Deleting, Unknown, "Deletion of dependent resources triggered",
                  Result(false, 1), None);
    } else {
      CheckedIsFinal(c, p, NoError);
    }
  }

  lemma WrapTells(err: Error, context: string)
    requires err.Error?
    ensures Wrap(err, context) == Error(context + ": " + err.text)
  {
  }

  lemma ReplyError(reply: Reply)
    ensures ErrorOf(reply) == if reply.NotFound? || reply.Failed? then Error(TextOf(reply)) else NoError
  {
  }

  /** The replies the calls of a reconciliation get. */
  predicate Suits(phase: Phase, reply: Reply) {
    match phase
    case Fetching => reply.GotProject? || reply.NotFound? || reply.Failed?
    case AddingFinalizer(_) => reply.GotProject? || reply.NotFound? || reply.Failed?
    case RemovingFinalizer(_) => reply.GotProject? || reply.NotFound? || reply.Failed?
    case _ => true
  }

  lemma DeployGoesOn(c: Config, l: Local, clock: int, pick: string, reply: Reply)
    requires l.phase.Deploying?
    ensures GoesOn(c, l, clock, pick, reply, Resume(c, l, clock, pick, reply).phase)
  {
    hide AfterDeploy, AfterSync, AfterDeletion, DeployStep, JobFor;
    var p := l.phase.project;
    var e := DeployStep(JobFor(c, p), l.phase.d, pick, reply);
    if e.Returned? {
      if p.deleting {
        DeletionExits(c, l.now, clock, p, e.ok, e.err, e.worklist);
      } else {
        SyncExits(c, l.now, clock, p, e.ok, e.err, e.worklist);
      }
    }
  }

  lemma FinalizerGoesOn(c: Config, l: Local, clock: int, pick: string, reply: Reply)
    requires (l.phase.AddingFinalizer? || l.phase.RemovingFinalizer?) && Suits(l.phase, reply)
    ensures GoesOn(c, l, clock, pick, reply, Resume(c, l, clock, pick, reply).phase)
  {
    hide Leave, Leaves, Wrap, ErrorOf, FinalError, Checked;
    ReplyError(reply);
    if reply.GotProject? {
      LeaveLeaves(c, l.now, clock, reply.project, Result(true, 0), NoError, None);
      CheckedIsFinal(c, reply.project, NoError);
    } else if l.phase.AddingFinalizer? {
      WrapTells(ErrorOf(reply), "error adding finalizer");
      LeaveLeaves(c, l.now, clock, WithFinalizer(l.phase.project), Result(false, 0),
                  Error("error adding finalizer" + ": " + TextOf(reply)), None);
    } else {
      WrapTells(ErrorOf(reply), "error removing finalizer");
      LeaveLeaves(c, l.now, clock, WithoutFinalizer(l.phase.project), Result(false, 0),
                  Error("error removing finalizer" + ": " + TextOf(reply)), None);
    }
  }

  lemma EveryPhaseGoesOn(c: Config, l: Local, clock: int, pick: string, reply: Reply)
    requires Suits(l.phase, reply)
    ensures GoesOn(c, l, clock, pick, reply, Resume(c, l, clock, pick, reply).phase)
  {
    match l.phase
    case Fetching =>
      hide AfterRead, AfterFetch;
      ReplyError(reply);
      if reply.GotProject? {
        ReadExits(c, l.now, clock, reply.project);
      } else if reply.Failed? {
        WrapTells(ErrorOf(reply), "unexpected get error");
      }
    case Deploying(_, _) => DeployGoesOn(c, l, clock, pick, reply);
    case AddingFinalizer(_) => FinalizerGoesOn(c, l, clock, pick, reply);
    case RemovingFinalizer(_) => FinalizerGoesOn(c, l, clock, pick, reply);
    case Reporting(_, _, err, _) => ReplyError(reply);
    case Done(_, _) =>
  }

  lemma ExchangeSuits(c: Config, s: Server, n: string, l: Local, pick: string, fate: Fate)
    ensures Suits(l.phase, Exchange(c, s, n, l, pick, fate).1)
  {
  }

  /** Every exit, in every system, whatever becomes of the pending call: a step of a reconciliation goes on
      as told, with the reply it got. */
  lemma StepGoesOn(c: Config, sys: System, n: string, clock: int, pick: string, fate: Fate)
    requires Running(sys, n)
    ensures var next := Next(c, sys, Advance(n, clock, pick, fate));
            n in next.active && GoesOn(c, sys.active[n], clock, pick,
                                       Exchange(c, sys.server, n, sys.active[n], pick, fate).1, next.active[n].phase)
  {
    hide GoesOn, Resume, Exchange;
    ExchangeSuits(c, sys.server, n, sys.active[n], pick, fate);
    EveryPhaseGoesOn(c, sys.active[n], clock, pick, Exchange(c, sys.server, n, sys.active[n], pick, fate).1);
  }

  /** The call a reconciliation has pending: the project is fetched by its name, updated by its finalizer
      alone, its objects are dealt with as built, and its status is written as reported. */
  ghost predicate Issues(c: Config, n: string, phase: Phase, pick: string, call: Option<Call>) {
    match phase
    case Fetching => call == Some(GetProject(n))
    case AddingFinalizer(p) =>
      call == Some(UpdateProject(p.(finalizers := p.finalizers + {"project-operator.cs.sap.com"})))
    case Deploying(p, d) => Sends(c, p, d, pick, call)
    case RemovingFinalizer(p) =>
      call == Some(UpdateProject(p.(finalizers := p.finalizers - {"project-operator.cs.sap.com"})))
    case Reporting(p, _, _, _) => call == Some(UpdateStatus(p))
    case Done(_, _) => call == None
  }

  /** In every reachable system, the call a reconciliation has pending is the one told. */
  lemma EveryCallTold(c: Config, sys: System, n: string, pick: string)
    requires Reachable(c, sys) && Running(sys, n)
    ensures Issues(c, n, sys.active[n].phase, pick, PendingCall(c, n, sys.active[n], pick))
  {
    hide Reachable, Sends, DeployCall;
    if sys.active[n].phase.Deploying? {
      SendsWhatWasBuilt(c, sys, n, pick);
    }
  }

  /** t is s with the status st persisted for the project of n. */
  ghost predicate StatusPersisted(s: Server, t: Server, n: string, st: Status) {
    && n in s.projects && n in t.projects && t.objects == s.objects
    && t.projects == s.projects[n := s.projects[n].(status := st, resourceVersion := t.projects[n].resourceVersion)]
  }

  /** The status write at the end: it persists exactly the status reported, or nothing, and it gets an
      answer without error only if it persists. */
  lemma WritePersists(c: Config, sys: System, n: string, clock: int, pick: string, fate: Fate)
    requires Reachable(c, sys) && Running(sys, n) && sys.active[n].phase.Reporting?
    ensures var s, t := sys.server, Next(c, sys, Advance(n, clock, pick, fate)).server;
            var p, reply := sys.active[n].phase.project, Exchange(c, sys.server, n, sys.active[n], pick, fate).1;
            && (t == s || StatusPersisted(s, t, n, p.status))
            && (!reply.NotFound? && !reply.Failed? ==> StatusPersisted(s, t, n, p.status))
  {
    ReachableInv(c, sys);
    PersistsStatus(sys.server, n, sys.active[n].phase.project, fate);
  }

  /** The project of n, if there is one, does not go by itself. */
  predicate Stays(s: Server, n: string) {
    n in s.projects ==> s.projects[n].name == n && (s.projects[n].deleting ==> s.projects[n].finalizers != {})
  }

  lemma PersistsStatus(s: Server, n: string, p: Project, fate: Fate)
    requires Stays(s, n) && p.name == n
    ensures var (t, reply) := Serve(s, UpdateStatus(p), fate);
            && (t == s || StatusPersisted(s, t, n, p.status))
            && (!reply.NotFound? && !reply.Failed? ==> StatusPersisted(s, t, n, p.status))
  {
  }

  // ---- Whole visits -------------------------------------------------------------------------

  /** The visit ends by persisting what phase reports, and with its answer. */
  ghost predicate Reports(s: Server, n: string, phase: Phase, t: Server, end: Phase) {
    phase.Reporting? && StatusPersisted(s, t, n, phase.project.status) && end == Done(phase.result, phase.err)
  }

  /** The end of a visit that saw the project for the first time, or found it held by others. */
  ghost predicate EndsAtOnce(c: Config, s: Server, n: string, v: Visit, t: Server, end: Phase)
    requires n in s.projects
  {
    exists phase :: AfterRead(c, v.now, v.clock, s.projects[n], phase) && Reports(s, n, phase, t, end)
  }

  /** The end of a visit that has added the finalizer: the project as it is then is reported, no more. */
  ghost predicate EndsWithFinalizer(c: Config, s: Server, n: string, v: Visit, t: Server, end: Phase) {
    exists u: Server, phase ::
      && n in s.projects && n in u.projects && u.objects == s.objects
      && u.projects == s.projects[n := s.projects[n].(
                         finalizers := s.projects[n].finalizers + {"project-operator.cs.sap.com"},
                         resourceVersion := u.projects[n].resourceVersion)]
      && Leaves(c, v.now, v.clock, u.projects[n], u.projects[n].status, Result(true, 0), NoError, None, phase)
      && Reports(u, n, phase, t, end)
  }

  /** The end of a visit that has made a deployer round, with the answer d and the server u after it. */
  ghost predicate EndsAfterRound(c: Config, n: string, p: Project, v: Visit, u: Server, d: Deploy, t: Server,
                                 end: Phase)
    requires d.Returned?
  {
    if p.deleting && d.err == NoError && d.ok then
      n !in t.projects && t.objects == u.objects && end == Done(Result(false, 0), NoError)
    else
      exists phase ::
        && (if p.deleting then AfterDeletion(c, v.now, v.clock, p, d.ok, d.err, phase)
            else AfterSync(c, v.now, v.clock, p, d.ok, d.err, d.worklist, phase))
        && Reports(u, n, phase, t, end)
  }

  lemma {:induction false} RoundKeepsProjects(job: Job, s: Server, d: Deploy, turns: seq<Turn>)
    ensures Round(job, s, d, turns).0.projects == s.projects
    decreases |turns|
  {
    if turns != [] {
      var (t, e) := RoundStep(job, s, d, turns[0]);
      TurnKeepsProjects(job, s, d, turns[0]);
      RoundKeepsProjects(job, t, e, turns[1..]);
    }
  }

  lemma TurnKeepsProjects(job: Job, s: Server, d: Deploy, turn: Turn)
    ensures RoundStep(job, s, d, turn).0.projects == s.projects
  {
    hide DeployStep;
  }

  /** The last step of a visit. */
  lemma DriveReports(c: Config, s: Server, n: string, l: Local, clock: int, picks: seq<string>)
    requires Stays(s, n) && l.phase.Reporting? && UpToDate(s, l.phase.project) && l.phase.project.name == n
    requires Drive(c, s, n, l, clock, picks).1.phase.Done?
    ensures var (t, m) := Drive(c, s, n, l, clock, picks); Reports(s, n, l.phase, t, m.phase)
  {
    DriveReport(c, s, n, l, clock, picks);
  }

  lemma VisitAtOnce(c: Config, s: Server, n: string, v: Visit)
    requires ServerOk(s) && n in s.projects && Completes(c, s, n, v)
    requires var read := s.projects[n];
             read.status.observedGeneration <= 0 || (read.deleting && read.finalizers - {ProjectFinalizer} != {})
    ensures EndsAtOnce(c, s, n, v, After(c, s, n, v), Drive(c, s, n, Local(v.now, Fetching), v.clock, v.picks).1.phase)
  {
    hide AfterRead;
    var l := Local(v.now, Fetching);
    var phase := AfterFetch(c, v.now, v.clock, s.projects[n]);
    ReadExits(c, v.now, v.clock, s.projects[n]);
    assert ServedStep(c, s, n, l, v.clock, v.picks[0]) == (s, l.(phase := phase));
    DriveOne(c, s, n, l, v.clock, v.picks);
    DriveReports(c, s, n, l.(phase := phase), v.clock, v.picks[1..]);
  }

  lemma VisitAddsFinalizer(c: Config, s: Server, n: string, v: Visit)
    requires ServerOk(s) && n in s.projects && Completes(c, s, n, v) && s.projects[n].status.observedGeneration > 0
    requires !s.projects[n].deleting && ProjectFinalizer !in s.projects[n].finalizers
    ensures EndsWithFinalizer(c, s, n, v, After(c, s, n, v),
                              Drive(c, s, n, Local(v.now, Fetching), v.clock, v.picks).1.phase)
  {
    hide Leave, Leaves;
    var p1, u := WithNamespace(c, s.projects[n]), Finalized(s, n);
    var r := u.projects[n];
    var l := Local(v.now, Fetching);
    var l1 := l.(phase := AddingFinalizer(p1));
    var l2 := l.(phase := Leave(c, v.now, v.clock, r, Result(true, 0), NoError, None));
    assert ServedStep(c, s, n, l, v.clock, v.picks[0]) == (s, l1);
    DriveOne(c, s, n, l, v.clock, v.picks);
    DriveOne(c, s, n, l1, v.clock, v.picks[1..]);
    assert Apply(s, UpdateProject(WithFinalizer(p1))) == (u, GotProject(r));
    assert ServedStep(c, s, n, l1, v.clock, v.picks[1..][0]) == (u, l2);
    ApplyOk(s, UpdateProject(WithFinalizer(p1)));
    LeaveLeaves(c, v.now, v.clock, r, Result(true, 0), NoError, None);
    LeftPhase(c, v.now, v.clock, r, Result(true, 0), NoError, None);
    DriveReports(c, u, n, l2, v.clock, v.picks[1..][1..]);
  }

  lemma LeftPhase(c: Config, now: int, clock: int, p: Project, result: Result, err: Error, basis: Option<Worklist>)
    ensures var phase := Leave(c, now, clock, p, result, err, basis);
            phase.Reporting? && phase.project == p.(status := phase.project.status)
  {
  }

  /** The operator's is the only finalizer, or the project is not being deleted and has it. */
  predicate ToBeDeployed(p: Project) {
    && p.status.observedGeneration > 0 && "project-operator.cs.sap.com" in p.finalizers
    && (p.deleting ==> p.finalizers == {"project-operator.cs.sap.com"})
  }

  lemma FetchToDeploy(c: Config, s: Server, n: string, now: int, clock: int, pick: string)
    requires n in s.projects && ToBeDeployed(s.projects[n])
    ensures var p := WithNamespace(c, s.projects[n]);
            ServedStep(c, s, n, Local(now, Fetching), clock, pick) == (s, Local(now, Deploying(p, Start(JobFor(c, p)))))
  {
  }

  lemma LetsGo(c: Config, s: Server, n: string, p: Project, now: int, clock: int, picks: seq<string>)
    requires Stays(s, n) && n in s.projects && p == WithNamespace(c, s.projects[n])
    requires p.deleting && p.finalizers == {ProjectFinalizer}
    requires Drive(c, s, n, Local(now, RemovingFinalizer(p)), clock, picks).1.phase.Done?
    ensures var (t, m) := Drive(c, s, n, Local(now, RemovingFinalizer(p)), clock, picks);
            n !in t.projects && t.objects == s.objects && m.phase == Done(Result(false, 0), NoError)
  {
    var l := Local(now, RemovingFinalizer(p));
    DriveOne(c, s, n, l, clock, picks);
    var (t, m) := ServedStep(c, s, n, l, clock, picks[0]);
    assert n !in t.projects && m.phase == Done(Nothing, NoError);
  }

  lemma AfterDeployReports(c: Config, now: int, clock: int, p: Project, ok: bool, err: Error, w: Worklist)
    requires !p.deleting || err != NoError || !ok
    ensures var phase := AfterDeploy(c, now, clock, p, ok, err, w);
            phase.Reporting? && phase.project == p.(status := phase.project.status)
  {
  }

  lemma EndAfterRound(c: Config, n: string, p: Project, v: Visit, u: Server, d: Deploy, picks: seq<string>)
    requires Stays(u, n) && n in u.projects && p == WithNamespace(c, u.projects[n]) && ToBeDeployed(p) && d.Returned?
    requires var l := Local(v.now, AfterDeploy(c, v.now, v.clock, p, d.ok, d.err, d.worklist));
             Drive(c, u, n, l, v.clock, picks).1.phase.Done?
    ensures var l := Local(v.now, AfterDeploy(c, v.now, v.clock, p, d.ok, d.err, d.worklist));
            var (t, m) := Drive(c, u, n, l, v.clock, picks); EndsAfterRound(c, n, p, v, u, d, t, m.phase)
  {
    hide Drive, Leave, AfterSync, AfterDeletion;
    var phase := AfterDeploy(c, v.now, v.clock, p, d.ok, d.err, d.worklist);
    if p.deleting && d.err == NoError && d.ok {
      LetsGo(c, u, n, p, v.now, v.clock, picks);
    } else {
      hide AfterDeploy;
      AfterDeployReports(c, v.now, v.clock, p, d.ok, d.err, d.worklist);
      DriveReports(c, u, n, Local(v.now, phase), v.clock, picks);
      if p.deleting {
        DeletionExits(c, v.now, v.clock, p, d.ok, d.err, d.worklist);
      } else {
        SyncExits(c, v.now, v.clock, p, d.ok, d.err, d.worklist);
      }
    }
  }

  lemma VisitRound(c: Config, s: Server, n: string, v: Visit) returns (turns: seq<Turn>)
    requires ServerOk(s) && n in s.projects && Completes(c, s, n, v) && ToBeDeployed(s.projects[n])
    ensures var p := s.projects[n].(status := s.projects[n].status.(namespace := c.namespacePrefix + n));
            var (u, d) := Round(JobFor(c, p), s, Start(JobFor(c, p)), turns);
            var (t, m) := Drive(c, s, n, Local(v.now, Fetching), v.clock, v.picks);
            && AllServed(turns) && u.projects == s.projects && d.Returned?
            && EndsAfterRound(c, n, p, v, u, d, t, m.phase)
  {
    hide Drive, AfterDeploy, EndsAfterRound;
    var p := WithNamespace(c, s.projects[n]);
    var job := JobFor(c, p);
    DriveOne(c, s, n, Local(v.now, Fetching), v.clock, v.picks);
    FetchToDeploy(c, s, n, v.now, v.clock, v.picks[0]);
    var k := DriveDeploy(c, s, n, Local(v.now, Deploying(p, Start(job))), v.clock, v.picks[1..]);
    turns := Turns(v.picks[1..][..k]);
    RoundKeepsProjects(job, s, Start(job), turns);
    var (u, d) := Round(job, s, Start(job), turns);
    EndAfterRound(c, n, p, v, u, d, v.picks[1..][k..]);
  }

  /** What a visit persists and answers, whatever the project, its objects and the processing order: seen for
      the first time it is Processing and comes again at once; held by others while it is to be deleted it is
      DeletionBlocked for ten seconds, and no object has changed; without the finalizer it gets it; and
      otherwise one round of the deployer decides between Ready (ten minutes), Processing or Deleting (one
      second), Error, and gone. */
  lemma VisitTells(c: Config, s: Server, n: string, v: Visit)
    requires ServerOk(s) && n in s.projects && Completes(c, s, n, v)
    ensures var read := s.projects[n];
            var (t, m) := Drive(c, s, n, Local(v.now, Fetching), v.clock, v.picks);
            && (read.status.observedGeneration <= 0 || (read.deleting && !ToBeDeployed(read))
                ==> EndsAtOnce(c, s, n, v, t, m.phase))
            && (read.status.observedGeneration > 0 && !read.deleting && !ToBeDeployed(read)
                ==> EndsWithFinalizer(c, s, n, v, t, m.phase))
            && (ToBeDeployed(read) ==>
                  var p := read.(status := read.status.(namespace := c.namespacePrefix + n));
                  exists turns ::
                    var (u, d) := Round(JobFor(c, p), s, Start(JobFor(c, p)), turns);
                    && AllServed(turns) && u.projects == s.projects && d.Returned?
                    && EndsAfterRound(c, n, p, v, u, d, t, m.phase))
  {
    hide Drive, EndsAtOnce, EndsWithFinalizer, EndsAfterRound, Start, JobFor;
    var read := s.projects[n];
    if ToBeDeployed(read) {
      var turns := VisitRound(c, s, n, v);
    } else if read.status.observedGeneration <= 0 || read.deleting {
      if read.status.observedGeneration > 0 {
        HeldByOthers(read.finalizers);
      }
      VisitAtOnce(c, s, n, v);
    } else {
      VisitAddsFinalizer(c, s, n, v);
    }
  }

  lemma HeldByOthers(finalizers: set<string>)
    requires finalizers != {} && finalizers != {ProjectFinalizer}
    ensures finalizers - {ProjectFinalizer} != {}
  {
    var f :| f in finalizers;
    if f == ProjectFinalizer {
      var g :| g in finalizers && g != ProjectFinalizer;
      assert g in finalizers - {ProjectFinalizer};
    } else {
      assert f in finalizers - {ProjectFinalizer};
    }
  }
}
