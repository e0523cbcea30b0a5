/** controllers/project_controller.go, as it is: Reconcile with its deferred block, and the compiler
    from spec to dependent objects. */
module Reconciler {
  import opened Kubernetes
  import opened Names
  import opened ApiServer
  import opened Conditions
  import opened Ttl
  import opened Deployment
  import opened Compilation
  import opened Controller
  import opened Runs
  import opened Client
  import opened Deployers
  import opened Exits

  /** Where a reconciliation stands when the deferred block begins. */
  function Exit(c: Config, now: int, clock: int, p: Project, skip: bool, result: Result, err: Error,
                basis: Option<Worklist>): Phase {
    if skip then Done(Nothing, Checked(c, p, NoError)) else Leave(c, now, clock, p, result, err, basis)
  }

  /** How a reconciliation goes on with a project that was seen before and has its namespace noted. */
  function Fetched(c: Config, now: int, clock: int, p: Project): Phase {
    if !p.deleting && ProjectFinalizer !in p.finalizers then AddingFinalizer(p)
    else Controller.Enter(c, now, clock, p, Start(JobFor(c, p)))
  }

  function CountOf(counts: map<string, nat>, name: string): nat {
    if name in counts then counts[name] else 0
  }

  /** The published gauges once a project's deferred block has run. */
  function GaugesWith(lib: Library, p: Project, now: int, gauges: map<string, Gauges>): map<string, Gauges> {
    if Watched(p) then gauges[p.name := Measure(lib, p, now)] else gauges - {p.name}
  }

  /** The error counters once a deferred block that began with err has run. */
  function ErrorsWith(p: Project, err: Error, counts: map<string, nat>): map<string, nat> {
    if !Watched(p) then counts - {p.name}
    else if err == NoError then counts
    else counts[p.name := 1 + CountOf(counts, p.name)]
  }

  /** What the metrics of a project are once its deferred block, begun with err, has run: on its way out it
      has none; otherwise its gauges tell its TTL, and its errors have been counted. Nobody else's
      metrics are touched. */
  ghost predicate MetricsAfter(lib: Library, p: Project, now: int, err: Error,
                               gauges0: map<string, Gauges>, gauges: map<string, Gauges>,
                               counts0: map<string, nat>, counts: map<string, nat>) {
    && gauges - {p.name} == gauges0 - {p.name} && counts - {p.name} == counts0 - {p.name}
    && if p.deleting && "project-operator.cs.sap.com" !in p.finalizers then
         p.name !in gauges && p.name !in counts
       else
         && p.name in gauges && Gauged(gauges[p.name], lib, p, now)
         && (err == NoError ==>
               (p.name in counts <==> p.name in counts0) && (p.name in counts ==> counts[p.name] == counts0[p.name]))
         && (err != NoError ==>
               p.name in counts && counts[p.name] == 1 + if p.name in counts0 then counts0[p.name] else 0)
  }

  /** The project and the error a deferred block began with; None if the fetch ended the call. */
  type Handled = Option<(Project, Error)>

  /** Without a deferred block the answer is that of the fetch; an error it began with is not lost. */
  ghost predicate Answered(handled: Handled, result: Result, err: Error) {
    match handled
    case None =>
      && result == Nothing
      && (err == NoError || exists text :: err == Error("unexpected get error" + ": " + text))
    case Some((_, err0)) => err0 != NoError ==> err != NoError
  }

  /** The exits after a round for a project that is not being deleted. */
  ghost predicate Synced(before: Status, after: Status, basis: Option<Worklist>, result: Result, err: Error,
                         clock: int) {
    if err != NoError then
      after == before && basis == None && result == Result(false, 0)
    else if basis.Some? then
      && result == Result(false, 600)
      && Notes(after, before, Ready, "Ready", True, "Dependent resources successfully reconciled", clock)
    else
      && result == Result(false, 1)
      && Notes(after, before, Processing, "Processing", Unknown, "Reconcilation of dependent resources triggered",
               clock)
  }

  /** The exits with a status write after a round for a deleted project. */
  ghost predicate Purged(before: Status, after: Status, result: Result, err: Error, clock: int) {
    if err != NoError then
      after == before && result == Result(false, 0)
    else
      && result == Result(false, 1)
      && Notes(after, before, Deleting, "Deleting", Unknown, "Deletion of dependent resources triggered", clock)
  }

  ghost predicate QuietOnlyGone(sys: System, name: string) {
    name in sys.active && sys.active[name].phase.Done?
      && Quiet(sys.active[name].phase.result, sys.active[name].phase.err)
    ==> name !in sys.server.projects
  }

  ghost function CallerFor(c: Config, name: string, now: int, p: Project, start: World): Caller {
    Caller(name, now, p, JobFor(c, p), (clock, ok, err, w) => AfterDeploy(c, now, clock, p, ok, err, w),
           start, (w: World) => Inv(c, w.system) && Goes(c, name, start, w))
  }

  lemma CallerServes(c: Config, name: string, now: int, p: Project, start: World)
    ensures Serves(CallerFor(c, name, now, p, start), c)
  {
  }

  class ProjectReconciler {
    const options: Config
    const deployer: Deployer
    var gauges: map<string, Gauges>
    var errorCount: map<string, nat>

    ghost predicate Valid() {
      && deployer.managedGVKs == Managed && deployer.labelKeyOwner == LabelKeyOwner
      && deployer.annotationKeyDigest == AnnotationKeyDigest && deployer.digest == options.lib.digest
    }

    /** All metrics are as before, except that those of name are as the deferred block leaves them. */
    ghost predicate Metered(name: string, now: int, handled: Handled, gauges0: map<string, Gauges>,
                            counts0: map<string, nat>)
      reads this
    {
      match handled
      case None => gauges == gauges0 && errorCount == counts0
      case Some((p, err)) =>
        p.name == name && MetricsAfter(options.lib, p, now, err, gauges0, gauges, counts0, errorCount)
    }

    constructor New(options: Config)
      ensures Valid() && this.options == options && gauges == map[] && errorCount == map[]
      ensures deployer.managedGVKs == [Namespace, RoleBinding, ClusterRoleBinding]
      ensures deployer.labelKeyOwner == "cs.sap.com/owner" && deployer.annotationKeyDigest == "cs.sap.com/digest"
    {
      this.options := options;
      deployer := new Deployer.New([Namespace, RoleBinding, ClusterRoleBinding], LabelKeyOwner, AnnotationKeyDigest,
                                   options.lib.digest);
      gauges, errorCount := map[], map[];
    }

    /** The subject list of one role. */
    method CollectSubjects(users: seq<string>, groups: seq<string>) returns (subjects: seq<Subject>)
      ensures subjects == Subjects(users, groups)
    {
      subjects := [];
      for i := 0 to |users|
        invariant subjects == Subjects(users[..i], [])
      {
        subjects := subjects + [User(users[i])];
      }
      for i := 0 to |groups|
        invariant subjects == Subjects(users, groups[..i])
      {
        subjects := subjects + [Group(groups[i])];
      }
    }

    method BuildDependentObjects(name: string, spec: Spec) returns (objects: seq<Object>)
      ensures objects == Build(options, name, spec)
      ensures ExactlyBuilt(options, name, spec, objects)
    {
      hide ExactlyBuilt;
      var namespace := Object(Namespace, None, "", options.namespacePrefix + name, spec.labels, spec.annotations,
                              NoBody);
      objects := [namespace];
      var allSubjects := [];
      if |spec.adminUsers| > 0 || |spec.adminGroups| > 0 {
        var subjects := CollectSubjects(spec.adminUsers, spec.adminGroups);
        var rolebinding := Object(RoleBinding, None, namespace.name, "project:admin", map[], map[],
                                  Binding(subjects, options.adminClusterRole));
        objects := objects + [rolebinding];
        allSubjects := allSubjects + subjects;
      }
      if |spec.viewerUsers| > 0 || |spec.viewerGroups| > 0 {
        var subjects := CollectSubjects(spec.viewerUsers, spec.viewerGroups);
        var rolebinding := Object(RoleBinding, None, namespace.name, "project:viewer", map[], map[],
                                  Binding(subjects, options.viewerClusterRole));
        objects := objects + [rolebinding];
        allSubjects := allSubjects + subjects;
      }
      assert allSubjects == Admins(spec) + Viewers(spec);
      if options.enableClusterView && |allSubjects| > 0 {
        var clusterrolebinding := Object(ClusterRoleBinding, None, "", "project:" + name + ":view", map[], map[],
                                         Binding(options.lib.uniq(allSubjects), "view"));
        objects := objects + [clusterrolebinding];
      }
      BuildIsExact(options, name, spec);
    }

    /** One call of the deployer on behalf of project p. */
    method RunDeployer(cluster: Cluster, name: string, objects: seq<Object>, owner: string, ghost now: int,
                       ghost p: Project)
      returns (ok: bool, err: Error, ghost w: Worklist)
      requires Valid() && cluster.config == options && cluster.Valid()
      requires deployer.JobOf(objects, owner) == JobFor(options, p)
      requires cluster.At(name, Local(now, Controller.Enter(options, now, cluster.clock, p, Start(JobFor(options, p)))))
      modifies cluster`system, cluster`clock, cluster`script
      ensures cluster.Valid() && Goes(options, name, old(cluster.State()), cluster.State())
      ensures cluster.At(name, Local(now, AfterDeploy(options, now, cluster.clock, p, ok, err, w)))
    {
      ghost var caller := CallerFor(options, name, now, p, cluster.State());
      CallerServes(options, name, now, p, cluster.State());
      GoesNowhere(options, name, cluster.State());
      ghost var listed;
      ok, err, w, listed := deployer.ReconcileObjects(cluster, name, objects, owner, caller);
    }

    /** Watches the TTL of a project that is not on its way out; drops the metrics of one that is. */
    method Publish(project: Project, now: int, err0: Error) returns (err: Error)
      modifies this
      ensures err == Checked(options, project, err0)
      ensures gauges == GaugesWith(options.lib, project, now, old(gauges))
      ensures errorCount == ErrorsWith(project, err0, old(errorCount))
      ensures MetricsAfter(options.lib, project, now, err0, old(gauges), gauges, old(errorCount), errorCount)
    {
      MeasureGauges(options.lib, project, now);
      hide Measure, Gauged;
      err := err0;
      if !project.deleting || ProjectFinalizer in project.finalizers {
        if err != NoError {
          errorCount := errorCount[project.name := 1 + CountOf(errorCount, project.name)];
        }
        var g;
        g, err := Watch(project, now, err);
        gauges := gauges[project.name := g];
      } else {
        errorCount, gauges := errorCount - {project.name}, gauges - {project.name};
      }
    }

    /** Reports the status of a project as observed. */
    method Report(cluster: Cluster, name: string, now: int, project: Project, status: ProjectStatus,
                  result0: Result, err0: Error, ghost basis: Option<Worklist>)
      returns (result: Result, err: Error)
      requires cluster.config == options && cluster.Valid()
      requires cluster.At(name, Local(now, Reporting(
                 project.(status := Observed(status.Value(), project.generation, now, err0, cluster.clock)), result0,
                   err0, basis)))
      modifies cluster`system, cluster`clock, cluster`script, status
      ensures cluster.Valid() && Goes(options, name, old(cluster.State()), cluster.State())
      ensures cluster.At(name, Local(now, Done(result, err)))
      ensures Quiet(result, err) ==> name !in cluster.system.server.projects
      ensures err0 != NoError ==> err != NoError
      ensures var stamped := old(status.Value()).(observedGeneration := project.generation,
                                                  lastObservedAt := Some(now));
              if err0 == NoError then status.Value() == stamped
              else Notes(status.Value(), stamped, ErrorState, "Error", False, err0.text, old(cluster.clock))
      ensures (result, err) == (result0, err0)
              || (result == Result(false, 0) && exists text :: err == Also(err0, text))
    {
      hide Notes;
      result, err := result0, err0;
      status.observedGeneration, status.lastObservedAt := project.generation, Some(now);
      if err != NoError {
        status.SetReadyCondition(False, ErrorState, err.text, cluster.clock);
      }
      var reply := cluster.Perform(name, "", Some(UpdateStatus(project.(status := status.Value()))));
      if ErrorOf(reply) != NoError {
        err, result := Aggregate(err, ErrorOf(reply)), Nothing;
        assert err == Also(err0, ErrorOf(reply).text);
      }
    }

    /** The deferred block: watches the TTL, reports the status, rewrites error and result. */
    method Defer(cluster: Cluster, name: string, now: int, project: Project, status: ProjectStatus,
                 skipStatusUpdate: bool, result0: Result, err0: Error, ghost basis: Option<Worklist>)
      returns (result: Result, err: Error)
      requires cluster.config == options && cluster.Valid()
      requires skipStatusUpdate ==> result0 == Nothing && err0 == NoError && QuietOnlyGone(cluster.system, name)
      requires cluster.At(name, Local(now, Exit(options, now, cluster.clock, project.(status := status.Value()),
                                                skipStatusUpdate, result0, err0, basis)))
      modifies cluster`system, cluster`clock, cluster`script, status, this
      ensures cluster.Valid() && Goes(options, name, old(cluster.State()), cluster.State())
      ensures cluster.At(name, Local(now, Done(result, err)))
      ensures Quiet(result, err) ==> name !in cluster.system.server.projects
      ensures gauges == GaugesWith(options.lib, project, now, old(gauges))
      ensures errorCount == ErrorsWith(project, err0, old(errorCount))
      ensures MetricsAfter(options.lib, project, now, err0, old(gauges), gauges, old(errorCount), errorCount)
      ensures err0 != NoError ==> err != NoError
    {
      hide MetricsAfter;
      err := Publish(project, now, err0);
      result := result0;
      if skipStatusUpdate {
        GoesNowhere(options, name, cluster.State());
        return;
      }
      result, err := Report(cluster, name, now, project, status, result, err, basis);
    }

    /** The gauges of a watched project; a TTL that does not parse turns into an error. */
    method Watch(project: Project, now: int, err0: Error) returns (g: Gauges, err: Error)
      requires Watched(project)
      ensures g == Measure(options.lib, project, now) && err == Checked(options, project, err0)
      ensures Gauged(g, options.lib, project, now)
      ensures err == if "cs.sap.com/ttl" in project.annotations
                        && options.lib.parseDuration(project.annotations["cs.sap.com/ttl"]).None?
                     then Also(err0, "time: invalid duration") else err0
    {
      MeasureGauges(options.lib, project, now);
      err := err0;
      if AnnotationKeyTTL in project.annotations {
        var ttl := 0;
        var parsed := options.lib.parseDuration(project.annotations[AnnotationKeyTTL]);
        if parsed.None? {
          err := Aggregate(err, ParseError);
        } else {
          ttl := parsed.value;
        }
        var remaining := RoundSecond(Saturate(project.creation + ttl - now));
        g := Gauges(RoundSecond(Saturate(ttl)), remaining, 0, project.creation / Second);
        if remaining < 0 {
          g := g.(expired := 1);
        }
      } else {
        g := Gauges(0, 0, 0, project.creation / Second);
      }
    }

    /** A project without deletion mark: its finalizer is persisted first, then its objects are synced. */
    method CreateOrUpdate(cluster: Cluster, name: string, now: int, project0: Project, status: ProjectStatus)
      returns (project: Project, result: Result, err: Error, ghost basis: Option<Worklist>)
      requires Valid() && cluster.config == options && cluster.Valid() && !project0.deleting
      requires cluster.At(name, Local(now, Fetched(options, now, cluster.clock, project0.(status := status.Value()))))
      modifies cluster`system, cluster`clock, cluster`script, status
      ensures project.name == project0.name
      ensures cluster.Valid() && Goes(options, name, old(cluster.State()), cluster.State())
      ensures cluster.At(name, Local(now, Leave(options, now, cluster.clock, project.(status := status.Value()),
                                                result, err, basis)))
      ensures if "project-operator.cs.sap.com" in project0.finalizers then
                Synced(old(status.Value()), status.Value(), basis, result, err, cluster.clock)
              else
                basis == None && result == (if err == NoError then Result(true, 0) else Result(false, 0))
    {
      hide WorkKey, Build, Notes, Leave;
      project, basis := project0, None;
      if ProjectFinalizer !in project.finalizers {
        project := project.(finalizers := project.finalizers + {ProjectFinalizer});
        var reply := cluster.Perform(name, "", Some(UpdateProject(project.(status := status.Value()))));
        if !reply.GotProject? {
          return project, Nothing, Wrap(ErrorOf(reply), "error adding finalizer"), basis;
        }
        project := reply.project;
        status.Load(project.status);
        return project, Result(true, 0), NoError, basis;
      }
      result, err, basis := Sync(cluster, name, now, project, status);
    }

    /** A project without deletion mark and with its finalizer: its objects are synced. */
    method Sync(cluster: Cluster, name: string, now: int, project: Project, status: ProjectStatus)
      returns (result: Result, err: Error, ghost basis: Option<Worklist>)
      requires Valid() && cluster.config == options && cluster.Valid() && !project.deleting
      requires cluster.At(name, Local(now, Controller.Enter(options, now, cluster.clock,
                                                            project.(status := status.Value()),
                                                            Start(JobFor(options, project)))))
      modifies cluster`system, cluster`clock, cluster`script, status
      ensures cluster.Valid() && Goes(options, name, old(cluster.State()), cluster.State())
      ensures cluster.At(name, Local(now, Leave(options, now, cluster.clock, project.(status := status.Value()),
                                                result, err, basis)))
      ensures Synced(old(status.Value()), status.Value(), basis, result, err, cluster.clock)
    {
      hide WorkKey, Build, Notes, Leave, WithReady, Goes, Inv;
      var objects := BuildDependentObjects(project.name, project.spec);
      var ok, failure;
      ghost var w;
      ok, failure, w := RunDeployer(cluster, name, objects, project.uid, now, project.(status := status.Value()));
      if failure != NoError {
        return Nothing, Wrap(failure, "error reconciling dependent resources"), None;
      }
      if ok {
        status.SetReadyCondition(True, Ready, "Dependent resources successfully reconciled", cluster.clock);
        return Result(false, 600), NoError, Some(w);
      }
      status.SetReadyCondition(Unknown, Processing, "Reconcilation of dependent resources triggered", cluster.clock);
      return Result(false, 1), NoError, None;
    }

    /** A deleted project without foreign finalizers: its objects go first, then its finalizer. */
    method Remove(cluster: Cluster, name: string, now: int, project0: Project, status: ProjectStatus)
      returns (project: Project, skipStatusUpdate: bool, result: Result, err: Error)
      requires Valid() && cluster.config == options && cluster.Valid()
      requires project0.deleting && project0.finalizers - {ProjectFinalizer} == {}
      requires cluster.At(name, Local(now, Fetched(options, now, cluster.clock, project0.(status := status.Value()))))
      modifies cluster`system, cluster`clock, cluster`script, status
      ensures project.name == project0.name
      ensures cluster.Valid() && Goes(options, name, old(cluster.State()), cluster.State())
      ensures cluster.At(name, Local(now, Exit(options, now, cluster.clock, project.(status := status.Value()),
                                               skipStatusUpdate, result, err, None)))
      ensures skipStatusUpdate ==> result == Nothing && err == NoError && QuietOnlyGone(cluster.system, name)
      ensures !skipStatusUpdate ==> Purged(old(status.Value()), status.Value(), result, err, cluster.clock)
    {
      project := project0;
      var ok, failure;
      ghost var w;
      ok, failure, w := RunDeployer(cluster, name, [], project.uid, now, project.(status := status.Value()));
      if failure != NoError {
        return project, false, Nothing, Wrap(failure, "error deleting dependent resources");
      }
      if !ok {
        status.SetReadyCondition(Unknown, Deleting, "Deletion of dependent resources triggered", cluster.clock);
        return project, false, Result(false, 1), NoError;
      }
      ghost var before := cluster.State();
      project, skipStatusUpdate, result, err := Release(cluster, name, now, project, status);
      GoesTrans(options, name, old(cluster.State()), before, cluster.State());
    }

    /** Removes the operator's finalizer. */
    method Release(cluster: Cluster, name: string, now: int, project0: Project, status: ProjectStatus)
      returns (project: Project, skipStatusUpdate: bool, result: Result, err: Error)
      requires Valid() && cluster.config == options && cluster.Valid()
      requires cluster.At(name, Local(now, if ProjectFinalizer in project0.finalizers
                                           then RemovingFinalizer(project0.(status := status.Value()))
                                           else Done(Nothing, Checked(options, project0, NoError))))
      requires ProjectFinalizer !in project0.finalizers ==> QuietOnlyGone(cluster.system, name)
      modifies cluster`system, cluster`clock, cluster`script, status
      ensures project.name == project0.name
      ensures cluster.Valid() && Goes(options, name, old(cluster.State()), cluster.State())
      ensures cluster.At(name, Local(now, Exit(options, now, cluster.clock, project.(status := status.Value()),
                                               skipStatusUpdate, result, err, None)))
      ensures skipStatusUpdate ==> result == Nothing && err == NoError && QuietOnlyGone(cluster.system, name)
      ensures !skipStatusUpdate ==>
                err != NoError && result == Result(false, 0) && status.Value() == old(status.Value())
    {
      project := project0;
      GoesNowhere(options, name, cluster.State());
      if ProjectFinalizer in project.finalizers {
        project := project.(finalizers := project.finalizers - {ProjectFinalizer});
        var reply := cluster.Perform(name, "", Some(UpdateProject(project.(status := status.Value()))));
        if !reply.GotProject? {
          return project, false, Nothing, Wrap(ErrorOf(reply), "error removing finalizer");
        }
        project := reply.project;
        status.Load(project.status);
      }
      return project, true, Nothing, NoError;
    }

    /** The status with the project's namespace in it. */
    function Placed(p: Project, st: Status): Status {
      st.(namespace := options.namespacePrefix + p.name)
    }

    /** The reconciliation of a fetched project, up to the deferred block. */
    method Handle(cluster: Cluster, name: string, now: int, project0: Project, status: ProjectStatus)
      returns (project: Project, skipStatusUpdate: bool, result: Result, err: Error, ghost basis: Option<Worklist>)
      requires Valid() && cluster.config == options && cluster.Valid()
      requires cluster.At(name, Local(now, AfterFetch(options, now, cluster.clock,
                                                      project0.(status := status.Value()))))
      modifies cluster`system, cluster`clock, cluster`script, status
      ensures project.name == project0.name
      ensures cluster.Valid() && Goes(options, name, old(cluster.State()), cluster.State())
      ensures cluster.At(name, Local(now, Exit(options, now, cluster.clock, project.(status := status.Value()),
                                               skipStatusUpdate, result, err, basis)))
      ensures skipStatusUpdate ==> result == Nothing && err == NoError && QuietOnlyGone(cluster.system, name)
      ensures old(status.observedGeneration) <= 0 ==>
                && !skipStatusUpdate && result == Result(true, 0) && err == NoError
                && cluster.system == old(cluster.system)
                && Notes(status.Value(), old(status.Value()), Processing, "Processing", Unknown, "First seen",
                         cluster.clock)
      ensures old(status.observedGeneration) > 0 && project0.deleting
              && project0.finalizers - {"project-operator.cs.sap.com"} != {} ==>
                && !skipStatusUpdate && result == Result(false, 10) && err == NoError
                && cluster.system == old(cluster.system)
                && Notes(status.Value(), Placed(project0, old(status.Value())), DeletionBlocked, "DeletionBlocked",
                         Unknown, "Deletion blocked due to existing foreign finalizers", cluster.clock)
      ensures old(status.observedGeneration) > 0 && project0.deleting && !skipStatusUpdate
              && project0.finalizers - {"project-operator.cs.sap.com"} == {} ==>
                Purged(Placed(project0, old(status.Value())), status.Value(), result, err, cluster.clock)
      ensures old(status.observedGeneration) > 0 && !project0.deleting
              && "project-operator.cs.sap.com" in project0.finalizers ==>
                Synced(Placed(project0, old(status.Value())), status.Value(), basis, result, err, cluster.clock)
    {
      hide WorkKey, Build, Notes, Synced, Purged, Leave;
      project, skipStatusUpdate, basis := project0, false, None;
      GoesNowhere(options, name, cluster.State());
      if status.observedGeneration <= 0 {
        status.SetReadyCondition(Unknown, Processing, "First seen", cluster.clock);
        return project, false, Result(true, 0), NoError, None;
      }
      status.namespace := options.namespacePrefix + project.name;
      if !project.deleting {
        project, result, err, basis := CreateOrUpdate(cluster, name, now, project, status);
      } else if project.finalizers - {ProjectFinalizer} != {} {
        status.SetReadyCondition(Unknown, DeletionBlocked, "Deletion blocked due to existing foreign finalizers",
                                 cluster.clock);
        return project, false, Result(false, 10), NoError, None;
      } else {
        project, skipStatusUpdate, result, err := Remove(cluster, name, now, project, status);
      }
    }

    /** From the fetched project to the answer. */
    method Finish(cluster: Cluster, name: string, now: int, project0: Project)
      returns (result: Result, err: Error, ghost handled: Handled)
      requires Valid() && cluster.config == options && cluster.Valid() && project0.name == name
      requires cluster.At(name, Local(now, AfterFetch(options, now, cluster.clock, project0)))
      modifies cluster`system, cluster`clock, cluster`script, this
      ensures cluster.Valid() && Goes(options, name, old(cluster.State()), cluster.State())
      ensures cluster.At(name, Local(now, Done(result, err)))
      ensures Quiet(result, err) ==> name !in cluster.system.server.projects
      ensures Metered(name, now, handled, old(gauges), old(errorCount)) && Answered(handled, result, err)
      ensures handled.Some?
    {
      hide AfterFetch;
      var status := new ProjectStatus(project0.status);
      var project, skipStatusUpdate;
      ghost var basis;
      project, skipStatusUpdate, result, err, basis := Handle(cluster, name, now, project0, status);
      handled := Some((project, err));
      ghost var before := cluster.State();
      result, err := Defer(cluster, name, now, project, status, skipStatusUpdate, result, err, basis);
      GoesTrans(options, name, old(cluster.State()), before, cluster.State());
    }

    /** The fetch of the project. */
    method Fetch(cluster: Cluster, name: string, ghost now: int) returns (reply: Reply)
      requires cluster.config == options && cluster.Valid() && cluster.At(name, Local(now, Fetching))
      modifies cluster`system, cluster`clock, cluster`script
      ensures Answers(Some(GetProject(name)), reply)
      ensures cluster.Valid() && Goes(options, name, old(cluster.State()), cluster.State())
      ensures cluster.At(name, Local(now,
                if reply.GotProject? then AfterFetch(options, now, cluster.clock, reply.project)
                else Done(Nothing, Wrap(IgnoreNotFound(reply), "unexpected get error"))))
      ensures reply.NotFound? ==> name !in cluster.system.server.projects
    {
      reply := cluster.Perform(name, "", Some(GetProject(name)));
    }

    /** From the fetch to the answer. */
    method Work(cluster: Cluster, name: string, now: int)
      returns (result: Result, err: Error, ghost handled: Handled)
      requires Valid() && cluster.config == options && cluster.Valid() && cluster.At(name, Local(now, Fetching))
      modifies cluster`system, cluster`clock, cluster`script, this
      ensures cluster.Valid() && Goes(options, name, old(cluster.State()), cluster.State())
      ensures cluster.At(name, Local(now, Done(result, err)))
      ensures Quiet(result, err) ==> name !in cluster.system.server.projects
      ensures Metered(name, now, handled, old(gauges), old(errorCount)) && Answered(handled, result, err)
    {
      var reply := Fetch(cluster, name, now);
      if ErrorOf(reply) != NoError {
        if reply.NotFound? {
          return Nothing, NoError, None;
        }
        return Nothing, Wrap(ErrorOf(reply), "unexpected get error"), None;
      }
      ghost var fetched := cluster.State();
      result, err, handled := Finish(cluster, name, now, reply.project);
      GoesTrans(options, name, old(cluster.State()), fetched, cluster.State());
    }

    /** One reconciliation, from the request to the answer given to the manager: a run of the system
        that takes this project's reconciliation from nothing to the answer returned; and if nobody else
        is to act, exactly one completed visit. */
    method Reconcile(cluster: Cluster, name: string)
      returns (result: Result, err: Error, ghost handled: Handled)
      requires Valid() && cluster.config == options && cluster.Valid() && !Running(cluster.system, name)
      modifies cluster`system, cluster`clock, cluster`script, this
      ensures cluster.Valid() && Reaches(options, old(cluster.system), cluster.system)
      ensures cluster.At(name, Local(old(cluster.clock), Done(result, err)))
      ensures Quiet(result, err) ==> name !in cluster.system.server.projects
      ensures Metered(name, old(cluster.clock), handled, old(gauges), old(errorCount)) && Answered(handled, result, err)
      ensures gauges - {name} == old(gauges) - {name} && errorCount - {name} == old(errorCount) - {name}
      ensures old(cluster.script) == [] ==>
                cluster.script == [] && cluster.clock == old(cluster.clock)
                && Visits(options, name, old(cluster.clock), old(cluster.system.server), cluster.system.server)
      ensures Civil(options, name, old(cluster.script)) ==>
                Civil(options, name, cluster.script) && VisitsAmong(options, name, old(cluster.system), cluster.system)
    {
      var now := cluster.Begin(name);
      ghost var begun := cluster.State();
      result, err, handled := Work(cluster, name, now);
      ReachesTrans(options, old(cluster.system), begun.system, cluster.system);
      if begun.script == [] {
        DriveIsVisit(options, name, now, begun.system, cluster.system);
      }
      if Civil(options, name, begun.script) {
        BegunAmong(options, name, old(cluster.system), now, cluster.system);
      }
    }
  }
}
