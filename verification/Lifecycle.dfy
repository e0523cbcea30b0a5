/** The life of one project when nobody interferes: how many reconciliations make it Ready, and how a
    deleted project goes. */
module Lifecycle {
  import opened Kubernetes
  import opened Names
  import opened ApiServer
  import opened Deployment
  import opened Compilation
  import opened Controller
  import opened Runs
  import opened Safety
  import opened Solo
  import opened Convergence

  // ---- From deployer rounds to reconciliations ----------------------------------------------

  function Turns(picks: seq<string>): seq<Turn> {
    seq(|picks|, i requires 0 <= i < |picks| => Turn(picks[i], Served))
  }

  lemma DeployServed(c: Config, s: Server, n: string, l: Local, clock: int, pick: string)
    requires l.phase.Deploying?
    ensures var p := l.phase.project;
            var (t, e) := RoundStep(JobFor(c, p), s, l.phase.d, Turn(pick, Served));
            ServedStep(c, s, n, l, clock, pick) == (t, l.(phase := Enter(c, l.now, clock, p, e)))
  {
  }

  /** A reconciliation that runs to its end through the deployer makes a complete round there. */
  lemma {:induction false} DriveDeploy(c: Config, s: Server, n: string, l: Local, clock: int, picks: seq<string>)
    returns (k: nat)
    requires l.phase.Deploying? && !l.phase.d.Returned? && Drive(c, s, n, l, clock, picks).1.phase.Done?
    ensures k <= |picks|
    ensures var p := l.phase.project;
            var (t, e) := Round(JobFor(c, p), s, l.phase.d, Turns(picks[..k]));
            && e.Returned?
            && Drive(c, s, n, l, clock, picks)
               == Drive(c, t, n, l.(phase := AfterDeploy(c, l.now, clock, p, e.ok, e.err, e.worklist)), clock,
                        picks[k..])
    decreases |picks|
  {
    var p, job := l.phase.project, JobFor(c, l.phase.project);
    var (t, e) := RoundStep(job, s, l.phase.d, Turn(picks[0], Served));
    DeployServed(c, s, n, l, clock, picks[0]);
    if e.Returned? {
      k := 1;
      assert Turns(picks[..1]) == [Turn(picks[0], Served)];
      assert Round(job, t, e, []) == (t, e);
    } else {
      var j := DriveDeploy(c, t, n, l.(phase := Deploying(p, e)), clock, picks[1..]);
      k := j + 1;
      assert Turns(picks[..k])[1..] == Turns(picks[1..][..j]);
      assert picks[1..][j..] == picks[k..];
    }
  }

  lemma DriveOne(c: Config, s: Server, n: string, l: Local, clock: int, picks: seq<string>)
    requires !l.phase.Done? && Drive(c, s, n, l, clock, picks).1.phase.Done?
    ensures picks != [] && var (t, m) := ServedStep(c, s, n, l, clock, picks[0]);
              Drive(c, s, n, l, clock, picks) == Drive(c, t, n, m, clock, picks[1..])
  {
  }

  /** The status write at the end of an undisturbed reconciliation succeeds. */
  lemma DriveReport(c: Config, s: Server, n: string, l: Local, clock: int, picks: seq<string>)
    requires l.phase.Reporting? && UpToDate(s, l.phase.project) && l.phase.project.name == n
    requires Drive(c, s, n, l, clock, picks).1.phase.Done?
    ensures Drive(c, s, n, l, clock, picks) ==
            (PutProject(s, s.projects[n].(status := l.phase.project.status)),
             l.(phase := Done(l.phase.result, l.phase.err)))
  {
    var t := PutProject(s, s.projects[n].(status := l.phase.project.status));
    assert ServedStep(c, s, n, l, clock, picks[0]) == (t, l.(phase := Done(l.phase.result, l.phase.err)));
  }

  // ---- Towards Ready ------------------------------------------------------------------------

  /** A project that is not being deleted and whose objects meet no obstacle. */
  ghost predicate Live(c: Config, s: Server, n: string) {
    && c.namespacePrefix != "" && n in s.projects && s.projects[n].name == n
    && !s.projects[n].deleting && s.projects[n].generation >= 1
    && !TtlBroken(c.lib, s.projects[n])
    && Calm(c, n, JobFor(c, s.projects[n]), s)
  }

  /** How many rounds of the deployer are still to change something. */
  ghost function RoundsLeft(c: Config, s: Server, n: string): nat
    requires n in s.projects
  {
    var job := JobFor(c, s.projects[n]);
    if NoGap(c, n, job, s) then 0
    else if forall k: Key | Belongs(c, n, k) :: Gap(c, n, job, s, k) <= 1 then 1 else 2
  }

  /** Reconciliations left before the one that reports Ready: first sight, finalizer, rounds. */
  ghost function Left(c: Config, s: Server, n: string): nat
    requires n in s.projects
  {
    var p := s.projects[n];
    (if p.status.observedGeneration <= 0 then 1 else 0) + (if ProjectFinalizer in p.finalizers then 0 else 1)
    + RoundsLeft(c, s, n)
  }

  predicate IsReady(p: Project) {
    p.status.state == Ready && p.status.observedGeneration == p.generation
  }

  /** A project that differs at most in status, version and the operator's finalizer. */
  predicate SameProject(p: Project, q: Project) {
    q == p.(status := q.status, resourceVersion := q.resourceVersion, finalizers := q.finalizers)
    && q.finalizers - {ProjectFinalizer} == p.finalizers - {ProjectFinalizer}
  }

  lemma StillLive(c: Config, s: Server, t: Server, n: string)
    requires Live(c, s, n) && n in t.projects && SameProject(s.projects[n], t.projects[n])
    requires Calm(c, n, JobFor(c, s.projects[n]), t)
    ensures Live(c, t, n) && JobFor(c, t.projects[n]) == JobFor(c, s.projects[n])
  {
  }

  lemma CalmByObjects(c: Config, n: string, job: Job, s: Server, t: Server)
    requires Calm(c, n, job, s) && ServerOk(t) && t.objects == s.objects
    ensures Calm(c, n, job, t)
    ensures forall k: Key :: Gap(c, n, job, t, k) == Gap(c, n, job, s, k)
  {
  }

  /** The project of n after its status has been written. */
  function Reported(s: Server, n: string, st: Status): Server
    requires n in s.projects
  {
    PutProject(s, s.projects[n].(status := st))
  }

  lemma ReportedLive(c: Config, s: Server, n: string, st: Status)
    requires Live(c, s, n)
    ensures var t := Reported(s, n, st);
            && Live(c, t, n) && SameProject(s.projects[n], t.projects[n]) && t.projects[n].status == st
            && t.projects[n].finalizers == s.projects[n].finalizers && RoundsLeft(c, t, n) == RoundsLeft(c, s, n)
  {
    var t := Reported(s, n, st);
    var job := JobFor(c, s.projects[n]);
    ApplyOk(s, UpdateStatus(s.projects[n].(status := st)));
    assert Apply(s, UpdateStatus(s.projects[n].(status := st))).0 == t;
    CalmByObjects(c, n, job, s, t);
    StillLive(c, s, t, n);
    assert forall k: Key {:trigger Belongs(c, n, k)} | Belongs(c, n, k) :: Gap(c, n, job, t, k) == Gap(c, n, job, s, k);
  }

  /** First sight: only the status changes, whether or not the TTL parses. */
  lemma FirstSeen(c: Config, s: Server, n: string, v: Visit)
    requires n in s.projects && s.projects[n].name == n
    requires s.projects[n].status.observedGeneration <= 0 && Completes(c, s, n, v)
    ensures exists st :: After(c, s, n, v) == Reported(s, n, st) && st.observedGeneration == s.projects[n].generation
  {
    var p := s.projects[n];
    var l := Local(v.now, Fetching);
    var m := l.(phase := Leave(c, v.now, v.clock, Noted(p, Unknown, Processing, "First seen", v.clock),
                               Result(true, 0), NoError, None));
    var st := m.phase.project.status;
    assert ServedStep(c, s, n, l, v.clock, v.picks[0]) == (s, m);
    DriveReport(c, s, n, m, v.clock, v.picks[1..]);
    assert After(c, s, n, v) == Reported(s, n, st);
  }

  /** The project of n after the operator has added its finalizer. */
  function Finalized(s: Server, n: string): Server
    requires n in s.projects
  {
    PutProject(s, WithFinalizer(s.projects[n]))
  }

  lemma FinalizedLive(c: Config, s: Server, n: string)
    requires Live(c, s, n)
    ensures var t := Finalized(s, n);
            && Live(c, t, n) && SameProject(s.projects[n], t.projects[n])
            && t.projects[n].status == s.projects[n].status
            && ProjectFinalizer in t.projects[n].finalizers && RoundsLeft(c, t, n) == RoundsLeft(c, s, n)
  {
    var t := Finalized(s, n);
    var job := JobFor(c, s.projects[n]);
    ApplyOk(s, UpdateProject(WithFinalizer(s.projects[n])));
    assert Apply(s, UpdateProject(WithFinalizer(s.projects[n]))).0 == t;
    CalmByObjects(c, n, job, s, t);
    StillLive(c, s, t, n);
    assert forall k: Key {:trigger Belongs(c, n, k)} | Belongs(c, n, k) :: Gap(c, n, job, t, k) == Gap(c, n, job, s, k);
  }

  /** The second visit adds the finalizer. */
  lemma AddsFinalizer(c: Config, s: Server, n: string, v: Visit)
    requires Live(c, s, n) && s.projects[n].status.observedGeneration > 0 && Completes(c, s, n, v)
    requires ProjectFinalizer !in s.projects[n].finalizers
    ensures exists st ::
              After(c, s, n, v) == Reported(Finalized(s, n), n, st) && st.observedGeneration == s.projects[n].generation
  {
    var p := s.projects[n];
    var l := Local(v.now, Fetching);
    var p1 := WithNamespace(c, p);
    var l1 := l.(phase := AddingFinalizer(p1));
    assert ServedStep(c, s, n, l, v.clock, v.picks[0]) == (s, l1);
    DriveOne(c, s, n, l, v.clock, v.picks);
    DriveOne(c, s, n, l1, v.clock, v.picks[1..]);
    var t := Finalized(s, n);
    var r := t.projects[n];
    var st := Observed(r.status, r.generation, v.now, NoError, v.clock);
    var l2 := l.(phase := Reporting(r.(status := st), Result(true, 0), NoError, None));
    assert Apply(s, UpdateProject(WithFinalizer(p1))) == (t, GotProject(r));
    assert ServedStep(c, s, n, l1, v.clock, v.picks[1..][0]) == (t, l2);
    DriveReport(c, t, n, l2, v.clock, v.picks[1..][1..]);
  }

  /** Every further visit makes one round of the deployer and reports what it answered. */
  lemma MakesRound(c: Config, s: Server, n: string, v: Visit) returns (t: Server, d: Deploy, st: Status)
    requires Live(c, s, n) && s.projects[n].status.observedGeneration > 0 && Completes(c, s, n, v)
    requires ProjectFinalizer in s.projects[n].finalizers
    ensures t.projects == s.projects && After(c, s, n, v) == Reported(t, n, st)
    ensures var job := JobFor(c, s.projects[n]);
            && d.Returned? && Calm(c, n, job, t) && AllShrunk(c, n, job, s, t) && (d.ok <==> NoGap(c, n, job, s))
    ensures st.observedGeneration == s.projects[n].generation && (d.ok ==> st.state == Ready)
  {
    hide AfterDeploy, Leave;
    var p1 := WithNamespace(c, s.projects[n]);
    var job := JobFor(c, p1);
    assert job == JobFor(c, s.projects[n]);
    var l1 := Local(v.now, Deploying(p1, Start(job)));
    FetchDeploys(c, s, n, v.now, v.clock, v.picks[0]);
    DriveOne(c, s, n, Local(v.now, Fetching), v.clock, v.picks);
    var k := DriveDeploy(c, s, n, l1, v.clock, v.picks[1..]);
    var turns := Turns(v.picks[1..][..k]);
    RoundConverges(c, p1, s, turns);
    RankZero(c, n, job, s);
    t, d := Round(job, s, Start(job), turns).0, Round(job, s, Start(job), turns).1;
    var l2 := Local(v.now, AfterDeploy(c, v.now, v.clock, p1, d.ok, NoError, d.worklist));
    RoundReports(c, v.now, v.clock, p1, d.ok, d.worklist);
    st := l2.phase.project.status;
    DriveReport(c, t, n, l2, v.clock, v.picks[1..][k..]);
  }

  function WithNamespace(c: Config, p: Project): Project {
    p.(status := p.status.(namespace := NamespaceName(c, p.name)))
  }

  lemma FetchDeploys(c: Config, s: Server, n: string, now: int, clock: int, pick: string)
    requires n in s.projects && s.projects[n].status.observedGeneration > 0
    requires !s.projects[n].deleting && ProjectFinalizer in s.projects[n].finalizers
    ensures var p1 := WithNamespace(c, s.projects[n]);
            ServedStep(c, s, n, Local(now, Fetching), clock, pick)
              == (s, Local(now, Deploying(p1, Start(JobFor(c, p1)))))
  {
  }

  lemma RoundReports(c: Config, now: int, clock: int, p: Project, ok: bool, w: Worklist)
    requires !p.deleting && !TtlBroken(c.lib, p)
    ensures var phase := AfterDeploy(c, now, clock, p, ok, NoError, w);
            && phase.Reporting? && phase.project == p.(status := phase.project.status)
            && phase.project.status.observedGeneration == p.generation && (ok ==> phase.project.status.state == Ready)
  {
  }

  /** Progress: an undisturbed reconciliation of a live project brings it one step closer, and once
      nothing is left reports it Ready. */
  lemma Progress(c: Config, s: Server, n: string, v: Visit)
    requires Live(c, s, n) && Completes(c, s, n, v)
    ensures var t := After(c, s, n, v);
            && Live(c, t, n) && SameProject(s.projects[n], t.projects[n])
            && (Left(c, s, n) > 0 ==> Left(c, t, n) < Left(c, s, n))
            && (Left(c, s, n) == 0 ==> Left(c, t, n) == 0 && IsReady(t.projects[n]))
  {
    var p := s.projects[n];
    if p.status.observedGeneration <= 0 {
      FirstSeen(c, s, n, v);
      var st :| After(c, s, n, v) == Reported(s, n, st) && st.observedGeneration == p.generation;
      ReportedLive(c, s, n, st);
    } else if ProjectFinalizer !in p.finalizers {
      AddsFinalizer(c, s, n, v);
      var st :| After(c, s, n, v) == Reported(Finalized(s, n), n, st) && st.observedGeneration == p.generation;
      FinalizedLive(c, s, n);
      ReportedLive(c, Finalized(s, n), n, st);
    } else {
      RoundProgress(c, s, n, v);
    }
  }

  lemma RoundProgress(c: Config, s: Server, n: string, v: Visit)
    requires Live(c, s, n) && s.projects[n].status.observedGeneration > 0 && Completes(c, s, n, v)
    requires ProjectFinalizer in s.projects[n].finalizers
    ensures var t := After(c, s, n, v);
            && Live(c, t, n) && SameProject(s.projects[n], t.projects[n])
            && (Left(c, s, n) > 0 ==> Left(c, t, n) < Left(c, s, n))
            && (Left(c, s, n) == 0 ==> Left(c, t, n) == 0 && IsReady(t.projects[n]))
  {
    var u, d, st := MakesRound(c, s, n, v);
    RoundsShrink(c, s, u, n);
    StillLive(c, s, u, n);
    ReportedLive(c, u, n, st);
  }

  lemma RoundsShrink(c: Config, s: Server, t: Server, n: string)
    requires n in s.projects && n in t.projects && JobFor(c, t.projects[n]) == JobFor(c, s.projects[n])
    requires AllShrunk(c, n, JobFor(c, s.projects[n]), s, t)
    ensures RoundsLeft(c, t, n) == 0 || RoundsLeft(c, t, n) < RoundsLeft(c, s, n)
  {
    var job := JobFor(c, s.projects[n]);
    forall k: Key | Belongs(c, n, k) ensures Gap(c, n, job, t, k) <= 1 {
      GapAtMostTwo(c, n, job, s, k);
    }
  }

  /** What k visits have made of a live project: at least k steps closer, and Ready once there are none
      left. */
  ghost predicate Approaches(c: Config, n: string, s: Server, t: Server, k: nat) {
    && Live(c, s, n) && Live(c, t, n) && SameProject(s.projects[n], t.projects[n])
    && Left(c, t, n) <= (if k <= Left(c, s, n) then Left(c, s, n) - k else 0)
    && (k > Left(c, s, n) ==> IsReady(t.projects[n]))
  }

  function AfterAll(c: Config, s: Server, n: string, visits: seq<Visit>): Server {
    if visits == [] then s else After(c, AfterAll(c, s, n, visits[..|visits| - 1]), n, visits[|visits| - 1])
  }

  predicate AllComplete(c: Config, s: Server, n: string, visits: seq<Visit>) {
    visits == [] ||
    (&& AllComplete(c, s, n, visits[..|visits| - 1])
     && Completes(c, AfterAll(c, s, n, visits[..|visits| - 1]), n, visits[|visits| - 1]))
  }

  lemma {:induction false} LeftAfter(c: Config, s: Server, n: string, visits: seq<Visit>)
    requires Live(c, s, n) && AllComplete(c, s, n, visits)
    ensures var t := AfterAll(c, s, n, visits);
            && Live(c, t, n) && SameProject(s.projects[n], t.projects[n])
            && Left(c, t, n) <= (if |visits| <= Left(c, s, n) then Left(c, s, n) - |visits| else 0)
            && (|visits| > Left(c, s, n) ==> IsReady(t.projects[n]))
  {
    if visits != [] {
      LeftAfter(c, s, n, visits[..|visits| - 1]);
      Progress(c, AfterAll(c, s, n, visits[..|visits| - 1]), n, visits[|visits| - 1]);
    }
  }

  lemma NothingLeft(c: Config, s: Server, n: string)
    requires n in s.projects && Left(c, s, n) == 0
    ensures NoGap(c, n, JobFor(c, s.projects[n]), s)
  {
  }

  /** More visits than were left make a live project Ready with all its objects in place. */
  lemma ReadyOnceThrough(c: Config, s: Server, n: string, visits: seq<Visit>)
    requires Live(c, s, n) && AllComplete(c, s, n, visits) && |visits| > Left(c, s, n)
    ensures var t := AfterAll(c, s, n, visits);
            && n in t.projects && IsReady(t.projects[n]) && t.projects[n].spec == s.projects[n].spec
            && NoGap(c, n, JobFor(c, t.projects[n]), t)
  {
    LeftAfter(c, s, n, visits);
    NothingLeft(c, AfterAll(c, s, n, visits), n);
  }

  /** Lifecycle progress: without interference, five reconciliations, in whatever processing orders,
      make any live project Ready for its generation with all its objects in place; and it stays so. */
  lemma ReadyWithinFive(c: Config, s: Server, n: string, visits: seq<Visit>)
    requires Live(c, s, n) && AllComplete(c, s, n, visits) && |visits| >= 5
    ensures var t := AfterAll(c, s, n, visits);
            && n in t.projects && IsReady(t.projects[n]) && t.projects[n].spec == s.projects[n].spec
            && NoGap(c, n, JobFor(c, t.projects[n]), t)
  {
    ReadyOnceThrough(c, s, n, visits);
  }

  /** Nothing stands in the way of the project's objects, whatever its spec: those it owns are healthy,
      and no key of its name is taken by an object it does not own. */
  predicate Unhindered(c: Config, s: Server, n: string)
    requires n in s.projects
  {
    var u := s.projects[n].uid;
    && (forall k | k in s.objects && OwnerOf(s.objects[k]) == Some(u) :: Healthy(s.objects[k]))
    && (forall k | k in s.objects && Belongs(c, n, k) :: OwnerOf(s.objects[k]) == Some(u))
  }

  /** In every reachable system, an unhindered project is live. */
  lemma UnhinderedIsLive(c: Config, s: Server, audit: map<string, Worklist>, n: string)
    requires c.namespacePrefix != "" && ServerInv(c, s, audit)
    requires n in s.projects && !s.projects[n].deleting && !TtlBroken(c.lib, s.projects[n])
    requires Unhindered(c, s, n)
    ensures Live(c, s, n)
  {
    var p := s.projects[n];
    var job := JobFor(c, p);
    BuildIsProjectJob(c, p);
    forall k | k in s.objects && OwnerOf(s.objects[k]) == Some(p.uid)
      ensures Belongs(c, n, k) && Healthy(s.objects[k])
    {
      assert s.issued[p.uid] == n;
    }
    forall x | x in AllDesired(job) && AllDesired(job)[x].key in s.objects
      ensures OwnedBy(s, job.owner, AllDesired(job)[x].key)
    {
      assert WantOk(c, n, job, AllDesired(job)[x]);
    }
  }

  /** In particular a new project none of whose keys is taken. */
  lemma FreshIsLive(c: Config, s: Server, audit: map<string, Worklist>, n: string)
    requires c.namespacePrefix != "" && ServerInv(c, s, audit)
    requires n in s.projects && !s.projects[n].deleting && !TtlBroken(c.lib, s.projects[n])
    requires forall k | k in s.objects :: !Belongs(c, n, k)
    ensures Live(c, s, n)
  {
    forall k | k in s.objects ensures OwnerOf(s.objects[k]) != Some(s.projects[n].uid) {
      assert s.issued[s.projects[n].uid] == n;
    }
    UnhinderedIsLive(c, s, audit, n);
  }

  lemma EditKeeps(c: Config, s: Server, audit: map<string, Worklist>, a: Action)
    requires ServerInv(c, s, audit)
    ensures ServerInv(c, Act(s, a), audit)
  {
    ActOk(s, a);
    ActStatuses(c, s, a, audit);
    ActHomed(c, s, a);
  }

  function EditedProject(p: Project, annotations: map<string, string>, finalizers: set<string>, spec: Spec,
                         revision: nat): Project {
    Edited(p, annotations, finalizers, spec).(resourceVersion := revision)
  }

  lemma EditChanges(s: Server, n: string, annotations: map<string, string>, finalizers: set<string>, spec: Spec)
    requires ServerOk(s) && n in s.projects && !s.projects[n].deleting && MayEdit(s.projects[n], finalizers)
    ensures var t := Act(s, EditProject(n, annotations, finalizers, spec));
            && t.objects == s.objects && n in t.projects
            && t.projects[n] == EditedProject(s.projects[n], annotations, finalizers, spec, s.revision + 1)
  {
  }

  /** An edit of an unhindered project that was seen and has its finalizer, to whatever spec, leaves at
      most two rounds of the deployer to go. */
  lemma EditedIsLive(c: Config, s: Server, audit: map<string, Worklist>, n: string,
                     annotations: map<string, string>, finalizers: set<string>, spec: Spec)
    requires c.namespacePrefix != "" && ServerInv(c, s, audit)
    requires n in s.projects && !s.projects[n].deleting && Unhindered(c, s, n)
    requires s.projects[n].status.observedGeneration > 0 && ProjectFinalizer in s.projects[n].finalizers
    requires MayEdit(s.projects[n], finalizers) && !TtlBroken(c.lib, s.projects[n].(annotations := annotations))
    ensures var t := Act(s, EditProject(n, annotations, finalizers, spec));
            && Live(c, t, n) && Left(c, t, n) <= 2
            && t.projects[n].spec == spec && t.projects[n].annotations == annotations
  {
    var t := Act(s, EditProject(n, annotations, finalizers, spec));
    EditKeeps(c, s, audit, EditProject(n, annotations, finalizers, spec));
    EditChanges(s, n, annotations, finalizers, spec);
    UnhinderedIsLive(c, t, audit, n);
  }

  /** Three undisturbed reconciliations after such an edit the project is Ready for the new spec, with
      exactly the new spec's objects in place. */
  lemma EditedReadyWithinThree(c: Config, s: Server, audit: map<string, Worklist>, n: string,
                               annotations: map<string, string>, finalizers: set<string>, spec: Spec,
                               visits: seq<Visit>)
    requires c.namespacePrefix != "" && ServerInv(c, s, audit)
    requires n in s.projects && !s.projects[n].deleting && Unhindered(c, s, n)
    requires s.projects[n].status.observedGeneration > 0 && ProjectFinalizer in s.projects[n].finalizers
    requires MayEdit(s.projects[n], finalizers) && !TtlBroken(c.lib, s.projects[n].(annotations := annotations))
    requires AllComplete(c, Act(s, EditProject(n, annotations, finalizers, spec)), n, visits) && |visits| >= 3
    ensures var t := AfterAll(c, Act(s, EditProject(n, annotations, finalizers, spec)), n, visits);
            && n in t.projects && IsReady(t.projects[n]) && t.projects[n].spec == spec
            && NoGap(c, n, JobFor(c, t.projects[n]), t)
  {
    EditedIsLive(c, s, audit, n, annotations, finalizers, spec);
    var t := Act(s, EditProject(n, annotations, finalizers, spec));
    ReadyOnceThrough(c, t, n, visits);
  }

  // ---- Towards gone -------------------------------------------------------------------------

  /** A project marked for deletion that only the operator still holds. */
  predicate Leaving(s: Server, n: string) {
    ServerOk(s) && n in s.projects && s.projects[n].deleting && s.projects[n].finalizers == {ProjectFinalizer}
  }

  predicate Seen(s: Server, n: string) {
    n in s.projects && s.projects[n].status.observedGeneration > 0
  }

  /** No owned object but a namespace is held by a finalizer. */
  predicate Unblocked(s: Server, u: string) {
    forall k | k in s.objects && OwnerOf(s.objects[k]) == Some(u) && !k.kind.Namespace? ::
      s.objects[k].finalizers == {} && !s.objects[k].terminating
  }

  /** All that is left of u's objects in t are terminating namespaces, and nothing else has changed. */
  ghost predicate OnlyNamespacesLeft(s: Server, t: Server, u: string) {
    forall k | k in t.objects ::
      && k in s.objects
      && (if OwnerOf(t.objects[k]) == Some(u)
          then OwnerOf(s.objects[k]) == Some(u) && k.kind.Namespace? && t.objects[k].terminating
          else t.objects[k] == s.objects[k])
  }

  predicate Purgeable(u: string, x: string, item: Item) {
    && item.want.None? && item.was.Some?
    && var o := item.was.value;
    && Addressable(o.key) && x == WorkKey(o.key) && OwnerOf(o) == Some(u)
    && (o.key.kind.Namespace? ==> NamespaceFinalizer in o.finalizers)
    && (!o.key.kind.Namespace? ==> o.finalizers == {} && !o.terminating)
  }

  predicate Untouched(s: Server, item: Item) {
    item.was.Some? && item.was.value.key in s.objects && s.objects[item.was.value.key] == item.was.value
  }

  /** The deletion loop between its start s0 and a later state s. */
  ghost predicate Purging(s0: Server, s: Server, u: string, w: Worklist, todo: set<string>) {
    && ServerOk(s) && s.projects == s0.projects
    && (forall x | x in w :: Purgeable(u, x, w[x]))
    && (forall x | x in todo :: x in w && Untouched(s, w[x]))
    && (forall k | k in s.objects :: PurgedAt(s0, s, u, w, todo, k))
  }

  function Purged(s: Server, item: Item): Server
    requires item.was.Some?
  {
    Apply(s, Delete(item.was.value.key, item.was.value.resourceVersion)).0
  }

  lemma PurgeItem(s: Server, u: string, x: string, item: Item)
    requires ServerOk(s) && Purgeable(u, x, item) && Untouched(s, item)
    ensures var (t, reply) := Apply(s, Delete(item.was.value.key, item.was.value.resourceVersion));
            var k := item.was.value.key;
            && reply == Accepted && OnlyAt(s, t, k) && ServerOk(t)
            && (k in t.objects ==> k.kind.Namespace? && t.objects[k].terminating && OwnerOf(t.objects[k]) == Some(u))
  {
    var k: Address := item.was.value.key;
    ApplyOk(s, Delete(k, item.was.value.resourceVersion));
    PutOnlyAt(s, k, s.objects[k].(terminating := true));
  }

  lemma PurgeRest(s: Server, t: Server, u: string, w: Worklist, todo: set<string>, pick: string)
    requires pick in todo && forall x | x in todo :: x in w && Purgeable(u, x, w[x]) && Untouched(s, w[x])
    requires Purgeable(u, pick, w[pick]) && OnlyAt(s, t, w[pick].was.value.key)
    ensures forall x | x in todo && x != pick :: Untouched(t, w[x])
  {
    forall x | x in todo && x != pick ensures Untouched(t, w[x]) {
      assert Purgeable(u, x, w[x]) && Purgeable(u, pick, w[pick]);
      assert w[x].was.value.key != w[pick].was.value.key;
    }
  }

  /** What the deletion loop has made of the object at j. */
  predicate PurgedAt(s0: Server, s: Server, u: string, w: Worklist, todo: set<string>, j: Address)
    requires j in s.objects
  {
    && j in s0.objects
    && (if OwnerOf(s.objects[j]) == Some(u)
        then OwnerOf(s0.objects[j]) == Some(u) && WorkKey(j) in w
             && (WorkKey(j) !in todo ==> j.kind.Namespace? && s.objects[j].terminating)
        else s.objects[j] == s0.objects[j])
  }

  lemma PurgedAtOther(s0: Server, s: Server, t: Server, u: string, w: Worklist, todo: set<string>,
                      k: Address, j: Address)
    requires OnlyAt(s, t, k) && j != k && j in t.objects && j in s.objects && PurgedAt(s0, s, u, w, todo, j)
    ensures PurgedAt(s0, t, u, w, todo - {WorkKey(k)}, j)
  {
    if WorkKey(j) == WorkKey(k) {
      WorkKeyInjective(j, k);
    }
  }

  lemma PurgeStep(s0: Server, s: Server, u: string, w: Worklist, todo: set<string>, pick: string)
    requires Purging(s0, s, u, w, todo) && pick in todo
    ensures Purging(s0, Purged(s, w[pick]), u, w, todo - {pick})
  {
    hide WorkKey;
    assert Purgeable(u, pick, w[pick]);
    var k: Address := w[pick].was.value.key;
    var t := Purged(s, w[pick]);
    PurgeItem(s, u, pick, w[pick]);
    PurgeRest(s, t, u, w, todo, pick);
    forall j | j in t.objects ensures PurgedAt(s0, t, u, w, todo - {pick}, j) {
      if j == k {
        assert PurgedAt(s0, s, u, w, todo, k);
      } else {
        PurgedAtOther(s0, s, t, u, w, todo, k, j);
      }
    }
  }

  ghost predicate PurgeOk(job: Job, s0: Server, s: Server, w: Worklist, d: Deploy) {
    && !d.Listing? && d.worklist == w && Counted(job, d) && (d.Returned? ==> d.err == NoError)
    && Purging(s0, s, job.owner, w, Todo(d))
  }

  lemma PurgeCall(job: Job, s: Server, w: Worklist, d: Deploy, pick: string)
    requires d.Working? && d.worklist == w && pick in d.todo && pick in w && ServerOk(s)
    requires Purgeable(job.owner, pick, w[pick]) && Untouched(s, w[pick])
    ensures RoundStep(job, s, d, Turn(pick, Served))
            == (Purged(s, w[pick]), Proceed(w, d.todo - {pick}, d.numUnready + 1))
  {
    PurgeItem(s, job.owner, pick, w[pick]);
  }

  lemma PurgeTurn(job: Job, s0: Server, s: Server, w: Worklist, d: Deploy, turn: Turn)
    requires PurgeOk(job, s0, s, w, d) && turn.fate.Served?
    ensures PurgeOk(job, s0, RoundStep(job, s, d, turn).0, w, RoundStep(job, s, d, turn).1)
  {
    hide WorkKey, Build;
    if d.Working? && turn.pick in d.todo {
      PurgeCall(job, s, w, d, turn.pick);
      PurgeStep(s0, s, job.owner, w, d.todo, turn.pick);
      TurnCounted(job, s, d, turn);
      assert Todo(Proceed(w, d.todo - {turn.pick}, d.numUnready + 1)) == d.todo - {turn.pick};
    }
  }

  lemma PurgeStart(s: Server, u: string, w: Worklist)
    requires ServerOk(s) && Unblocked(s, u) && ListingOk(s, u, Listing(3, w))
    ensures Purging(s, s, u, w, w.Keys)
    ensures w == map[] <==> Unowned(s, u)
  {
    forall k | k in s.objects && OwnerOf(s.objects[k]) == Some(u) ensures WorkKey(k) in w {
      AllKindsListed(w, k.kind);
    }
    forall x | x in w ensures w[x].was.value.key in s.objects && OwnerOf(s.objects[w[x].was.value.key]) == Some(u) {
    }
  }

  /** What an undisturbed round does when nothing is desired any more. */
  ghost predicate PurgeResult(u: string, s: Server, t: Server, d: Deploy)
    requires d.Returned?
  {
    && d.err == NoError && ServerOk(t) && t.projects == s.projects
    && (d.ok <==> Unowned(s, u)) && OnlyNamespacesLeft(s, t, u)
  }

  lemma PurgeLoop(job: Job, s: Server, w: Worklist, turns: seq<Turn>)
    requires job.objects == [] && AllServed(turns)
    requires ServerOk(s) && Unblocked(s, job.owner) && ListingOk(s, job.owner, Listing(3, w))
    ensures var (t, e) := Round(job, s, AfterListing(job, w), turns); e.Returned? ==> PurgeResult(job.owner, s, t, e)
  {
    PurgeStart(s, job.owner, w);
    AfterListingCounted(job, w);
    var d := AfterListing(job, w);
    assert d == Proceed(w, w.Keys, 0);
    var inv := (x: Server, y: Deploy) => PurgeOk(job, s, x, w, y);
    forall x: Server, y: Deploy, turn: Turn | inv(x, y) && turn.fate.Served?
      ensures inv(RoundStep(job, x, y, turn).0, RoundStep(job, x, y, turn).1)
    {
      PurgeTurn(job, s, x, w, y, turn);
    }
    RoundKeeps(inv, job, s, d, turns, true);
    var (t, e) := Round(job, s, d, turns);
    if e.Returned? {
      assert AllMatch(job, w) <==> w == map[] by {
        forall x | x in w ensures !Matches(job, w[x]) {
          assert Purgeable(job.owner, x, w[x]);
        }
      }
    }
  }

  lemma {:induction false} PurgeRound(job: Job, s: Server, d: Deploy, turns: seq<Turn>)
    requires job.managed == Managed && job.ownerKey == LabelKeyOwner && job.objects == [] && AllServed(turns)
    requires ServerOk(s) && Unblocked(s, job.owner) && d.Listing? && d.next < 3 && ListingOk(s, job.owner, d)
    ensures var (t, e) := Round(job, s, d, turns); e.Returned? ==> PurgeResult(job.owner, s, t, e)
    decreases |turns|
  {
    if turns != [] {
      ListTurn(job, s, d, turns[0]);
      var e := RoundStep(job, s, d, turns[0]).1;
      assert AllServed(turns[1..]);
      if e.Listing? && e.next < 3 && ListingOk(s, job.owner, e) {
        PurgeRound(job, s, e, turns[1..]);
      } else {
        var w :| e == AfterListing(job, w) && ListingOk(s, job.owner, Listing(3, w));
        PurgeLoop(job, s, w, turns[1..]);
      }
    }
  }

  lemma FetchPurges(c: Config, s: Server, n: string, now: int, clock: int, pick: string)
    requires Leaving(s, n) && Seen(s, n)
    ensures var p1 := WithNamespace(c, s.projects[n]);
            var l1 := Local(now, Deploying(p1, Start(JobFor(c, p1))));
            && JobFor(c, p1).objects == [] && JobFor(c, p1).owner == s.projects[n].uid
            && ServedStep(c, s, n, Local(now, Fetching), clock, pick) == (s, l1)
  {
  }

  lemma PurgeReports(c: Config, now: int, clock: int, p: Project, w: Worklist)
    requires p.deleting && ProjectFinalizer in p.finalizers
    ensures var phase := AfterDeploy(c, now, clock, p, false, NoError, w);
            && phase.Reporting? && phase.project == p.(status := phase.project.status)
            && phase.project.status.observedGeneration == p.generation
            && phase.project.status.state == if TtlBroken(c.lib, p) then ErrorState else Deleting
  {
  }

  lemma RemovesFinalizer(c: Config, s: Server, n: string, p: Project, now: int, clock: int, picks: seq<string>)
    requires Leaving(s, n) && p == WithNamespace(c, s.projects[n])
    requires Drive(c, s, n, Local(now, RemovingFinalizer(p)), clock, picks).1.phase.Done?
    ensures var t := Drive(c, s, n, Local(now, RemovingFinalizer(p)), clock, picks).0;
            n !in t.projects && t.objects == s.objects
  {
    var l := Local(now, RemovingFinalizer(p));
    DriveOne(c, s, n, l, clock, picks);
    var (t, m) := ServedStep(c, s, n, l, clock, picks[0]);
    assert n !in t.projects && m.phase.Done?;
  }

  /** The status written at the end leaves a leaving project leaving. */
  lemma ReportedLeaving(s: Server, n: string, st: Status)
    requires Leaving(s, n) && st.observedGeneration == s.projects[n].generation
    ensures var t := Reported(s, n, st);
            && Leaving(t, n) && Seen(t, n) && t.objects == s.objects
            && t.projects[n].uid == s.projects[n].uid && t.projects[n].status == st
  {
    ApplyOk(s, UpdateStatus(s.projects[n].(status := st)));
    assert Apply(s, UpdateStatus(s.projects[n].(status := st))).0 == Reported(s, n, st);
  }

  lemma ReportsDeleting(c: Config, t: Server, n: string, p: Project, w: Worklist,
                        now: int, clock: int, picks: seq<string>)
    requires Leaving(t, n) && p == WithNamespace(c, t.projects[n])
    requires Drive(c, t, n, Local(now, AfterDeploy(c, now, clock, p, false, NoError, w)), clock, picks).1.phase.Done?
    ensures var u := Drive(c, t, n, Local(now, AfterDeploy(c, now, clock, p, false, NoError, w)), clock, picks).0;
            && Leaving(u, n) && Seen(u, n) && u.objects == t.objects && u.projects[n].uid == p.uid
            && u.projects[n].status.state == if TtlBroken(c.lib, p) then ErrorState else Deleting
  {
    PurgeReports(c, now, clock, p, w);
    var l := Local(now, AfterDeploy(c, now, clock, p, false, NoError, w));
    DriveReport(c, t, n, l, clock, picks);
    ReportedLeaving(t, n, l.phase.project.status);
  }

  /** An undisturbed reconciliation of a leaving project marks it seen; or finds nothing owned and lets the
      project go; or deletes everything it can, so that only terminating namespaces remain. A TTL that
      does not parse shows in the status only. */
  lemma LeavingStep(c: Config, s: Server, n: string, v: Visit)
    requires Leaving(s, n) && Unblocked(s, s.projects[n].uid) && Completes(c, s, n, v)
    ensures var t, u := After(c, s, n, v), s.projects[n].uid;
            if Seen(s, n) && Unowned(s, u) then n !in t.projects && Unowned(t, u)
            else
              && Leaving(t, n) && Seen(t, n) && t.projects[n].uid == u
              && (if !Seen(s, n) then t.objects == s.objects
                  else && OnlyNamespacesLeft(s, t, u)
                       && t.projects[n].status.state == if TtlBroken(c.lib, s.projects[n]) then ErrorState
                          else Deleting)
  {
    if Seen(s, n) {
      LeavingRound(c, s, n, v);
    } else {
      FirstSeen(c, s, n, v);
      var st :| After(c, s, n, v) == Reported(s, n, st) && st.observedGeneration == s.projects[n].generation;
      ReportedLeaving(s, n, st);
    }
  }

  lemma LeavingRound(c: Config, s: Server, n: string, v: Visit)
    requires Leaving(s, n) && Seen(s, n) && Unblocked(s, s.projects[n].uid) && Completes(c, s, n, v)
    ensures var t, u := After(c, s, n, v), s.projects[n].uid;
            if Unowned(s, u) then n !in t.projects && Unowned(t, u)
            else
              && Leaving(t, n) && Seen(t, n) && t.projects[n].uid == u && OnlyNamespacesLeft(s, t, u)
              && t.projects[n].status.state == if TtlBroken(c.lib, s.projects[n]) then ErrorState else Deleting
  {
    var p1 := WithNamespace(c, s.projects[n]);
    var job := JobFor(c, p1);
    var l1 := Local(v.now, Deploying(p1, Start(job)));
    FetchPurges(c, s, n, v.now, v.clock, v.picks[0]);
    DriveOne(c, s, n, Local(v.now, Fetching), v.clock, v.picks);
    var k := DriveDeploy(c, s, n, l1, v.clock, v.picks[1..]);
    var turns := Turns(v.picks[1..][..k]);
    PurgeRound(job, s, Start(job), turns);
    var (t, d) := Round(job, s, Start(job), turns);
    AfterPurge(c, s, t, n, p1, d, v.now, v.clock, v.picks[1..][k..]);
  }

  /** The rest of a visit once the deployer has returned. */
  lemma AfterPurge(c: Config, s: Server, t: Server, n: string, p: Project, d: Deploy,
                   now: int, clock: int, picks: seq<string>)
    requires Leaving(s, n) && p == WithNamespace(c, s.projects[n])
    requires d.Returned? && PurgeResult(p.uid, s, t, d)
    requires Drive(c, t, n, Local(now, AfterDeploy(c, now, clock, p, d.ok, d.err, d.worklist)), clock,
                   picks).1.phase.Done?
    ensures var r := Drive(c, t, n, Local(now, AfterDeploy(c, now, clock, p, d.ok, d.err, d.worklist)), clock, picks).0;
            if Unowned(s, p.uid) then n !in r.projects && Unowned(r, p.uid)
            else
              && Leaving(r, n) && Seen(r, n) && r.projects[n].uid == p.uid && OnlyNamespacesLeft(s, r, p.uid)
              && r.projects[n].status.state == if TtlBroken(c.lib, p) then ErrorState else Deleting
  {
    if d.ok {
      RemovesFinalizer(c, t, n, p, now, clock, picks);
    } else {
      ReportsDeleting(c, t, n, p, d.worklist, now, clock, picks);
    }
  }

  predicate OnlyTerminating(s: Server, u: string) {
    forall k | k in s.objects && OwnerOf(s.objects[k]) == Some(u) :: k.kind.Namespace? && s.objects[k].terminating
  }

  /** A deletion under way: the project is gone and owns nothing, or is leaving; seen and emptied tell how
      far it has come. */
  ghost predicate Departing(s: Server, n: string, u: string, seen: bool, emptied: bool) {
    if n in s.projects then
      && Leaving(s, n) && s.projects[n].uid == u && Unblocked(s, u)
      && (seen ==> Seen(s, n)) && (emptied ==> OnlyTerminating(s, u))
    else
      Unowned(s, u)
  }

  lemma DepartingStep(c: Config, s: Server, n: string, u: string, seen: bool, v: Visit)
    requires Departing(s, n, u, seen, false) && Completes(c, s, n, v)
    ensures Departing(After(c, s, n, v), n, u, true, seen)
  {
    if n in s.projects {
      LeavingStep(c, s, n, v);
    } else {
      DriveOne(c, s, n, Local(v.now, Fetching), v.clock, v.picks);
    }
  }

  lemma {:induction false} DepartingAfter(c: Config, s: Server, n: string, visits: seq<Visit>)
    requires Leaving(s, n) && Unblocked(s, s.projects[n].uid) && AllComplete(c, s, n, visits)
    ensures Departing(AfterAll(c, s, n, visits), n, s.projects[n].uid, |visits| > 0 || Seen(s, n),
                      |visits| >= if Seen(s, n) then 1 else 2)
  {
    if visits != [] {
      var less := visits[..|visits| - 1];
      DepartingAfter(c, s, n, less);
      DepartingStep(c, AfterAll(c, s, n, less), n, s.projects[n].uid, |less| > 0 || Seen(s, n), visits[|visits| - 1]);
    }
  }

  /** Garbage collection has run on what u owns: its terminating namespaces are gone; others may or may not
      be, and nothing else has changed. */
  ghost predicate Collected(s: Server, t: Server, u: string) {
    && ServerOk(t) && t.projects == s.projects
    && forall k | k in t.objects ::
         && k in s.objects && t.objects[k] == s.objects[k]
         && !(OwnerOf(t.objects[k]) == Some(u) && k.kind.Namespace? && t.objects[k].terminating)
  }

  /** A deleted project without foreign finalizers goes, whether or not its TTL parses: undisturbed
      reconciliations (one, or two if it was never seen) delete its objects, and after garbage
      collection the next one removes the last hold on it. */
  lemma DeletedGoes(c: Config, s: Server, n: string, visits: seq<Visit>, collected: Server, last: Visit)
    requires Leaving(s, n) && Unblocked(s, s.projects[n].uid)
    requires AllComplete(c, s, n, visits) && |visits| >= if Seen(s, n) then 1 else 2
    requires Collected(AfterAll(c, s, n, visits), collected, s.projects[n].uid) && Completes(c, collected, n, last)
    ensures n !in After(c, collected, n, last).projects && Unowned(collected, s.projects[n].uid)
  {
    DepartingAfter(c, s, n, visits);
    if n in collected.projects {
      LeavingStep(c, collected, n, last);
    } else {
      DriveOne(c, collected, n, Local(last.now, Fetching), last.clock, last.picks);
    }
  }
}
