/** The life of one project in company: everybody else goes on with whatever leaves this project and its
    objects alone, other projects' reconciliations included, whatever becomes of their calls. */
module Company {
  import opened Kubernetes
  import opened Names
  import opened ApiServer
  import opened Deployment
  import opened Compilation
  import opened Controller
  import opened Runs
  import opened Safety
  import opened Guarantees
  import opened Convergence
  import opened Lifecycle

  /** A step of somebody else that concerns neither the project of n nor any key of its name. */
  predicate Aloof(c: Config, step: Step, n: string) {
    match step
    case Environment(CreateProject(p)) => p.name != n
    case Environment(EditProject(m, _, _, _)) => m != n
    case Environment(DeleteProject(m)) => m != n
    case Environment(WriteObject(o)) => !Belongs(c, n, o.key)
    case Environment(RemoveObject(k)) => !Belongs(c, n, k)
    case Begin(m, _) => m != n
    case Advance(m, _, _, _) => m != n
  }

  /** What the project of n owns lies under the keys of its name. */
  predicate OwnsItsKeys(c: Config, s: Server, n: string) {
    n in s.projects ==>
      forall k | k in s.objects && OwnerOf(s.objects[k]) == Some(s.projects[n].uid) :: Belongs(c, n, k)
  }

  /** From s to t, the project of n and everything under the keys of its name is unchanged. */
  ghost predicate Elsewhere(c: Config, n: string, s: Server, t: Server) {
    && ServerOk(t) && OwnsItsKeys(c, s, n) && OwnsItsKeys(c, t, n)
    && (n in t.projects <==> n in s.projects) && (n in s.projects ==> t.projects[n] == s.projects[n])
    && forall k: Address | Belongs(c, n, k) ::
         (k in t.objects <==> k in s.objects) && (k in s.objects ==> t.objects[k] == s.objects[k])
  }

  // ---- Aloof steps happen elsewhere -----------------------------------------------------------

  lemma InvOwnsItsKeys(c: Config, sys: System, n: string)
    requires Inv(c, sys)
    ensures OwnsItsKeys(c, sys.server, n)
  {
    hide WorkKey, Build;
    var s := sys.server;
    if n in s.projects {
      forall k | k in s.objects && OwnerOf(s.objects[k]) == Some(s.projects[n].uid) ensures Belongs(c, n, k) {
        assert s.issued[s.projects[n].uid] == n;
      }
    }
  }

  /** Project and keys are unchanged by the action or call. */
  ghost predicate Spared(c: Config, n: string, s: Server, t: Server) {
    && (n in t.projects <==> n in s.projects) && (n in s.projects ==> t.projects[n] == s.projects[n])
    && forall k: Address | Belongs(c, n, k) ::
         (k in t.objects <==> k in s.objects) && (k in s.objects ==> t.objects[k] == s.objects[k])
  }

  lemma PutProjectSpares(c: Config, s: Server, p: Project, n: string)
    requires p.name != n
    ensures Spared(c, n, s, PutProject(s, p))
  {
    hide WorkKey, Build, Belongs;
  }

  lemma PutObjectSpares(c: Config, s: Server, k: Address, o: Stored, n: string)
    requires !Belongs(c, n, k)
    ensures Spared(c, n, s, PutObject(s, k, o))
  {
    hide WorkKey, Build, Belongs;
  }

  lemma ActSpares(c: Config, s: Server, a: Action, n: string)
    requires ServerOk(s) && Aloof(c, Environment(a), n)
    ensures Spared(c, n, s, Act(s, a))
  {
    hide WorkKey, Build, Belongs, PutProject, PutObject;
    if Act(s, a) != s {
      match a
      case CreateProject(p) =>
        PutProjectSpares(c, s.(issued := s.issued[p.uid := p.name]),
                         p.(generation := 1, deleting := false, status := FreshStatus), n);
      case EditProject(m, annotations, finalizers, spec) =>
        PutProjectSpares(c, s, Edited(s.projects[m], annotations, finalizers, spec), n);
      case DeleteProject(m) =>
        PutProjectSpares(c, s, s.projects[m].(deleting := true, generation := s.projects[m].generation + 1), n);
      case WriteObject(o) => PutObjectSpares(c, s, o.key, o, n);
      case RemoveObject(_) =>
    }
  }

  /** A reconciliation of another name only ever updates its own project. */
  lemma PendingProject(c: Config, s: Server, m: string, l: Local, pick: string)
    requires PhaseOk(c, s, m, l.phase) && PendingCall(c, m, l, pick).Some?
    ensures match PendingCall(c, m, l, pick).value
            case UpdateProject(p) => p.name == m
            case UpdateStatus(p) => p.name == m
            case _ => true
  {
    hide WorkKey, Build;
  }

  lemma CallSparesProject(s: Server, call: Call, n: string)
    requires ServerOk(s)
    requires (call.UpdateProject? || call.UpdateStatus?) ==> call.project.name != n
    ensures var t := Apply(s, call).0;
            (n in t.projects <==> n in s.projects) && (n in s.projects ==> t.projects[n] == s.projects[n])
  {
    hide WorkKey, Build;
    if !call.UpdateProject? && !call.UpdateStatus? {
      assert Apply(s, call).0.projects == s.projects;
    }
  }

  lemma OthersKeys(c: Config, s: Server, m: string, l: Local, pick: string, fate: Fate, n: string, k: Address)
    requires c.namespacePrefix != "" && ServerOk(s) && Homed(c, s) && PhaseOk(c, s, m, l.phase) && m != n
    requires Belongs(c, n, k)
    ensures var t := Exchange(c, s, m, l, pick, fate).0;
            (k in t.objects <==> k in s.objects) && (k in s.objects ==> t.objects[k] == s.objects[k])
  {
    hide WorkKey, Build;
    var t := Exchange(c, s, m, l, pick, fate).0;
    ExchangeIsolated(c, s, m, l, pick, fate, k);
    if Changed(s, t, k) {
      assert s.issued[l.phase.project.uid] == m;
      KeysDisjoint(c, n, m, k);
    } else if k !in s.objects && k in t.objects {
      KeysDisjoint(c, n, m, k);
    }
  }

  lemma ExchangeSpares(c: Config, s: Server, m: string, l: Local, pick: string, fate: Fate, n: string)
    requires c.namespacePrefix != "" && ServerOk(s) && Homed(c, s) && PhaseOk(c, s, m, l.phase) && m != n
    ensures Spared(c, n, s, Exchange(c, s, m, l, pick, fate).0)
  {
    hide WorkKey, Build, Belongs;
    forall k: Address | Belongs(c, n, k) {
      OthersKeys(c, s, m, l, pick, fate, n, k);
    }
    if PendingCall(c, m, l, pick).Some? {
      PendingProject(c, s, m, l, pick);
      CallSparesProject(s, PendingCall(c, m, l, pick).value, n);
    }
  }

  lemma AloofElsewhere(c: Config, sys: System, step: Step, n: string)
    requires Inv(c, sys) && Aloof(c, step, n)
    ensures var next := Next(c, sys, step);
            && Inv(c, next) && Elsewhere(c, n, sys.server, next.server)
            && (n in next.active <==> n in sys.active) && (n in sys.active ==> next.active[n] == sys.active[n])
  {
    hide WorkKey, Build, Belongs;
    NextKeeps(c, sys, step);
    InvOwnsItsKeys(c, sys, n);
    InvOwnsItsKeys(c, Next(c, sys, step), n);
    match step
    case Environment(a) => ActSpares(c, sys.server, a, n);
    case Begin(_, _) =>
    case Advance(m, _, pick, fate) =>
      if Running(sys, m) {
        ExchangeSpares(c, sys.server, m, sys.active[m], pick, fate, n);
      }
  }

  // ---- What happens elsewhere changes nothing here ----------------------------------------------

  lemma GapElsewhereSame(c: Config, n: string, job: Job, s: Server, t: Server, x: string, k: Key)
    requires c.namespacePrefix != "" && Elsewhere(c, n, s, t) && Belongs(c, n, k)
    ensures GapAt(c, n, job, t, x, k) == GapAt(c, n, job, s, x, k)
    ensures HasNamespace(c, t, n) == HasNamespace(c, s, n) && OwnedBy(t, job.owner, k) == OwnedBy(s, job.owner, k)
    ensures k in t.objects <==> k in s.objects
    ensures k in s.objects ==> t.objects[k] == s.objects[k]
  {
    hide WorkKey, Build;
    BelongsAddressable(c, n, k);
    BelongsAddressable(c, n, NamespaceKeyOf(c, n));
    assert Belongs(c, n, NamespaceKeyOf(c, n));
  }

  lemma CalmElsewhere(c: Config, n: string, job: Job, s: Server, t: Server)
    requires ProjectJob(c, n, job) && Calm(c, n, job, s) && Elsewhere(c, n, s, t)
    requires n in s.projects && job.owner == s.projects[n].uid
    ensures Calm(c, n, job, t)
  {
    hide WorkKey, Build, Belongs;
    forall x | x in AllDesired(job) && AllDesired(job)[x].key in t.objects
      ensures OwnedBy(t, job.owner, AllDesired(job)[x].key)
    {
      assert WantOk(c, n, job, AllDesired(job)[x]);
      GapElsewhereSame(c, n, job, s, t, x, AllDesired(job)[x].key);
    }
  }

  lemma ListingElsewhere(c: Config, n: string, s: Server, t: Server, d: Deploy)
    requires Elsewhere(c, n, s, t) && n in s.projects && ListingOk(s, s.projects[n].uid, d)
    ensures ListingOk(t, s.projects[n].uid, d)
  {
    hide WorkKey, Build, Belongs;
    var u := s.projects[n].uid;
    forall k | k in t.objects && OwnerOf(t.objects[k]) == Some(u) && ListedKind(d, k.kind)
      ensures WorkKey(k) in d.worklist && d.worklist[WorkKey(k)].was.Some?
    {
      assert Belongs(c, n, k);
      assert k in s.objects && s.objects[k] == t.objects[k];
    }
    forall x | x in d.worklist
      ensures var o := d.worklist[x].was.value; OwnedBy(t, u, o.key) && t.objects[o.key] == o
    {
      assert Belongs(c, n, d.worklist[x].was.value.key);
    }
  }

  lemma ReflectsElsewhere(c: Config, n: string, job: Job, s: Server, t: Server, x: string, item: Item)
    requires c.namespacePrefix != "" && Elsewhere(c, n, s, t) && Reflects(c, n, job, s, x, item)
    ensures Reflects(c, n, job, t, x, item)
  {
    hide WorkKey, Build, Belongs;
    GapElsewhereSame(c, n, job, s, t, x, ItemKey(item));
  }

  lemma AllInElsewhere(c: Config, n: string, job: Job, s: Server, t: Server, w: Worklist)
    requires Elsewhere(c, n, s, t) && n in s.projects && job.owner == s.projects[n].uid && AllIn(job, s, w)
    ensures AllIn(job, t, w)
  {
    hide WorkKey, Build, Belongs;
    forall k | k in t.objects && OwnerOf(t.objects[k]) == Some(job.owner) ensures WorkKey(k) in w {
      assert Belongs(c, n, k);
    }
  }

  /** The loop, after somebody has acted elsewhere. */
  lemma LoopElsewhere(c: Config, n: string, job: Job, s0: Server, s: Server, t: Server, w: Worklist, todo: set<string>)
    requires ProjectJob(c, n, job) && LoopOk(c, n, job, s0, s, w, todo) && Elsewhere(c, n, s, t)
    requires n in s.projects && job.owner == s.projects[n].uid
    ensures LoopOk(c, n, job, s0, t, w, todo)
    ensures AllCloser(c, n, job, s0, s, w, todo) ==> AllCloser(c, n, job, s0, t, w, todo)
  {
    hide WorkKey, Build, Belongs;
    CalmElsewhere(c, n, job, s, t);
    AllInElsewhere(c, n, job, s, t, w);
    BelongsNamespace(c, n);
    GapElsewhereSame(c, n, job, s, t, "", NamespaceKeyOf(c, n));
    forall x | x in w
      ensures GapAt(c, n, job, t, x, ItemKey(w[x])) == GapAt(c, n, job, s, x, ItemKey(w[x]))
      ensures OwnedBy(t, job.owner, ItemKey(w[x])) == OwnedBy(s, job.owner, ItemKey(w[x]))
      ensures x in todo ==> Reflects(c, n, job, t, x, w[x])
    {
      GapElsewhereSame(c, n, job, s, t, x, ItemKey(w[x]));
      if x in todo {
        ReflectsElsewhere(c, n, job, s, t, x, w[x]);
      }
    }
  }

  lemma BelongsNamespace(c: Config, n: string)
    ensures Belongs(c, n, NamespaceKeyOf(c, n))
  {
  }

  /** The loop told from a server before somebody acted elsewhere. */
  lemma LoopFromElsewhere(c: Config, n: string, job: Job, s0: Server, s: Server, w: Worklist)
    requires ProjectJob(c, n, job) && LoopOk(c, n, job, s, s, w, w.Keys) && Elsewhere(c, n, s0, s)
    requires Calm(c, n, job, s0) && n in s.projects && job.owner == s.projects[n].uid
    ensures LoopOk(c, n, job, s0, s, w, w.Keys) && LoopOk(c, n, job, s0, s0, w, {})
  {
    hide WorkKey, Build, Belongs;
    var back := s0;
    assert Elsewhere(c, n, s, back);
    AllInElsewhere(c, n, job, s, s0, w);
    BelongsNamespace(c, n);
    GapElsewhereSame(c, n, job, s, s0, "", NamespaceKeyOf(c, n));
    forall x | x in w
      ensures GapAt(c, n, job, s0, x, ItemKey(w[x])) == GapAt(c, n, job, s, x, ItemKey(w[x]))
      ensures Reflects(c, n, job, s0, x, w[x])
    {
      GapElsewhereSame(c, n, job, s, s0, x, ItemKey(w[x]));
      ReflectsElsewhere(c, n, job, s, s0, x, w[x]);
    }
  }

  lemma LiveElsewhere(c: Config, n: string, s: Server, t: Server)
    requires Live(c, s, n) && Elsewhere(c, n, s, t)
    ensures Live(c, t, n) && RoundsLeft(c, t, n) == RoundsLeft(c, s, n) && Left(c, t, n) == Left(c, s, n)
  {
    hide WorkKey, Build, Belongs;
    var p := s.projects[n];
    var job := JobFor(c, p);
    BuildIsProjectJob(c, p);
    CalmElsewhere(c, n, job, s, t);
    forall k: Key | Belongs(c, n, k) ensures Gap(c, n, job, t, k) == Gap(c, n, job, s, k) {
      GapElsewhereSame(c, n, job, s, t, WorkKey(k), k);
    }
  }

  // ---- A reconciliation on its way --------------------------------------------------------------

  /** Rounds and finalizer left once the status is written. */
  ghost function LeftOnce(c: Config, s: Server, n: string): nat
    requires n in s.projects
  {
    (if ProjectFinalizer in s.projects[n].finalizers then 0 else 1) + RoundsLeft(c, s, n)
  }

  /** Writing st would complete a visit that began at s0 and has brought the project closer. */
  ghost predicate Promising(c: Config, n: string, s0: Server, s: Server, st: Status)
    requires n in s0.projects && n in s.projects
  {
    && (Left(c, s0, n) > 0 ==> LeftOnce(c, s, n) < Left(c, s0, n))
    && (Left(c, s0, n) == 0 ==> LeftOnce(c, s, n) == 0 && st.state == Ready)
  }

  ghost predicate Progressed(c: Config, n: string, s0: Server, s: Server)
    requires n in s0.projects && n in s.projects
  {
    && (Left(c, s0, n) > 0 ==> Left(c, s, n) < Left(c, s0, n))
    && (Left(c, s0, n) == 0 ==> Left(c, s, n) == 0 && IsReady(s.projects[n]))
  }

  /** Where the deployer stands in a visit that began at s0; served: no call of it has failed. */
  ghost predicate OnRound(c: Config, n: string, job: Job, s0: Server, s: Server, d: Deploy, served: bool) {
    match d
    case Listing(next, _) => next < 3 && Elsewhere(c, n, s0, s) && ListingOk(s, job.owner, d)
    case Working(w, todo, _) =>
      && Looping(c, n, job, s0, s, w, d) && LoopOk(c, n, job, s0, s0, w, {})
      && (served ==> AllCloser(c, n, job, s0, s, w, todo))
    case Returned(_, _, _) => false
  }

  predicate WasSeen(p: Project) {
    p.status.observedGeneration > 0
  }

  ghost predicate OnPhase(c: Config, n: string, s0: Server, s: Server, phase: Phase, served: bool)
    requires n in s0.projects && n in s.projects
  {
    var q := s.projects[n];
    match phase
    case Fetching => Elsewhere(c, n, s0, s)
    case AddingFinalizer(p) =>
      Elsewhere(c, n, s0, s) && WasSeen(q) && ProjectFinalizer !in q.finalizers && p == WithNamespace(c, q)
    case Deploying(p, d) =>
      && q == s0.projects[n] && WasSeen(q) && ProjectFinalizer in q.finalizers && p == WithNamespace(c, q)
      && OnRound(c, n, JobFor(c, q), s0, s, d, served)
    case RemovingFinalizer(_) => false
    case Reporting(p, _, _, _) =>
      && p.name == n && p.status.observedGeneration == q.generation
      && (served ==> UpToDate(s, p) && Promising(c, n, s0, s, p.status))
      && (Left(c, s0, n) == 0 ==> q == s0.projects[n])
    case Done(_, _) => served ==> Progressed(c, n, s0, s)
  }

  /** A reconciliation of n that began at s0 is at l, the server at s. Nothing has been lost; and if no
      call has failed, the visit will have brought the project closer. */
  ghost predicate OnWay(c: Config, n: string, s0: Server, s: Server, l: Local, served: bool) {
    && Live(c, s0, n) && Live(c, s, n) && SameProject(s0.projects[n], s.projects[n])
    && Left(c, s, n) <= Left(c, s0, n)
    && OnPhase(c, n, s0, s, l.phase, served)
  }

  // ---- Somebody acts elsewhere ------------------------------------------------------------------

  lemma ElsewhereTrans(c: Config, n: string, s: Server, t: Server, u: Server)
    requires Elsewhere(c, n, s, t) && Elsewhere(c, n, t, u)
    ensures Elsewhere(c, n, s, u)
  {
    hide WorkKey, Build, Belongs;
  }

  lemma RoundElsewhere(c: Config, n: string, job: Job, s0: Server, s: Server, t: Server, d: Deploy, served: bool)
    requires ProjectJob(c, n, job) && OnRound(c, n, job, s0, s, d, served) && Elsewhere(c, n, s, t)
    requires n in s.projects && job.owner == s.projects[n].uid
    ensures OnRound(c, n, job, s0, t, d, served)
  {
    hide WorkKey, Build, Belongs, LoopOk;
    match d
    case Listing(_, _) =>
      ElsewhereTrans(c, n, s0, s, t);
      ListingElsewhere(c, n, s, t, d);
    case Working(w, todo, _) => LoopElsewhere(c, n, job, s0, s, t, w, todo);
  }

  lemma OnWayElsewhere(c: Config, n: string, s0: Server, s: Server, t: Server, l: Local, served: bool)
    requires OnWay(c, n, s0, s, l, served) && Elsewhere(c, n, s, t)
    ensures OnWay(c, n, s0, t, l, served)
  {
    hide WorkKey, Build, Belongs, LoopOk, OnRound;
    LiveElsewhere(c, n, s, t);
    match l.phase
    case Fetching => ElsewhereTrans(c, n, s0, s, t);
    case AddingFinalizer(_) => ElsewhereTrans(c, n, s0, s, t);
    case Deploying(p, d) =>
      BuildIsProjectJob(c, s.projects[n]);
      RoundElsewhere(c, n, JobFor(c, s.projects[n]), s0, s, t, d, served);
    case _ =>
  }

  // ---- The reconciliation's own steps -----------------------------------------------------------

  /** A leave with a status write ahead, for a project in hand like the stored one. */
  lemma LeaveOnWay(c: Config, n: string, s0: Server, s: Server, now: int, clock: int, p: Project, result: Result,
                   err: Error, basis: Option<Worklist>, served: bool)
    requires n in s0.projects && n in s.projects && p.name == n && p.generation == s.projects[n].generation
    requires Left(c, s0, n) == 0 ==> s.projects[n] == s0.projects[n]
    requires served ==> UpToDate(s, p) && err == NoError && !TtlBroken(c.lib, p) && Promising(c, n, s0, s, p.status)
    ensures OnPhase(c, n, s0, s, Leave(c, now, clock, p, result, err, basis), served)
  {
    hide WorkKey, Build, Belongs, Left, LeftOnce;
  }

  lemma FetchOnWay(c: Config, n: string, s0: Server, s: Server, now: int, clock: int, served: bool)
    requires Live(c, s0, n) && Live(c, s, n) && Elsewhere(c, n, s0, s)
    ensures OnPhase(c, n, s0, s, AfterFetch(c, now, clock, s.projects[n]), served)
  {
    hide WorkKey, Build, Belongs, Leave, RoundsLeft;
    var q := s.projects[n];
    LiveElsewhere(c, n, s0, s);
    if q.status.observedGeneration <= 0 {
      LeaveOnWay(c, n, s0, s, now, clock, Noted(q, Unknown, Processing, "First seen", clock), Result(true, 0),
                 NoError, None, served);
    } else if ProjectFinalizer in q.finalizers {
      StartOnWay(c, n, s0, s, q);
    }
  }

  lemma StartOnWay(c: Config, n: string, s0: Server, s: Server, q: Project)
    requires Elsewhere(c, n, s0, s) && !q.deleting
    ensures JobFor(c, WithNamespace(c, q)) == JobFor(c, q) && Start(JobFor(c, q)) == Listing(0, map[])
    ensures forall served :: OnRound(c, n, JobFor(c, q), s0, s, Listing(0, map[]), served)
  {
    hide WorkKey, Belongs;
  }

  /** One step of the deployer, whatever becomes of its call. */
  lemma DeployFated(c: Config, s: Server, n: string, l: Local, clock: int, pick: string, fate: Fate)
    requires l.phase.Deploying?
    ensures var p := l.phase.project;
            var (t, e) := RoundStep(JobFor(c, p), s, l.phase.d, Turn(pick, fate));
            var (t', reply) := Exchange(c, s, n, l, pick, fate);
            t' == t && Resume(c, l, clock, pick, reply) == l.(phase := Enter(c, l.now, clock, p, e))
  {
    hide WorkKey, Build;
  }

  /** What a deployer that has returned leaves behind. */
  ghost predicate RoundDone(c: Config, n: string, job: Job, s0: Server, t: Server, e: Deploy, served: bool)
    requires e.Returned?
  {
    && NoWorse(c, n, job, s0, t)
    && (served ==> e.err == NoError && AllShrunk(c, n, job, s0, t) && (e.ok <==> NoGap(c, n, job, s0)))
  }

  lemma NoWorseElsewhere(c: Config, n: string, job: Job, s: Server, t: Server)
    requires c.namespacePrefix != "" && Elsewhere(c, n, s, t)
    ensures NoWorse(c, n, job, s, t)
  {
    hide WorkKey, Build, Belongs;
    forall k: Key | Belongs(c, n, k) ensures Gap(c, n, job, t, k) == Gap(c, n, job, s, k) {
      GapElsewhereSame(c, n, job, s, t, WorkKey(k), k);
    }
  }

  lemma ListOnWay(c: Config, n: string, job: Job, s0: Server, s: Server, d: Deploy, turn: Turn, served: bool)
    requires ProjectJob(c, n, job) && OnRound(c, n, job, s0, s, d, served) && d.Listing?
    requires Calm(c, n, job, s0) && Calm(c, n, job, s) && (served ==> turn.fate.Served?)
    requires n in s.projects && job.owner == s.projects[n].uid
    ensures var (t, e) := RoundStep(job, s, d, turn);
            && t == s
            && (if e.Returned? then RoundDone(c, n, job, s0, t, e, served) else OnRound(c, n, job, s0, t, e, served))
  {
    hide WorkKey, Build, Belongs, LoopOk, RoundStep;
    ListTurn(job, s, d, turn);
    var e := RoundStep(job, s, d, turn).1;
    if turn.fate.Served? && !(e.Listing? && e.next < 3 && ListingOk(s, job.owner, e)) {
      var listed :| e == AfterListing(job, listed) && ListingOk(s, job.owner, Listing(3, listed));
      var w := Joined(job, listed, |job.objects|);
      LoopStart(c, n, job, s, listed);
      LoopStarted(c, n, job, s, listed);
      AfterListingCounted(job, listed);
      LoopFromElsewhere(c, n, job, s0, s, w);
      NoneDone(c, n, job, s0, s, w);
    } else if !turn.fate.Served? {
      NoWorseElsewhere(c, n, job, s0, s);
    }
  }

  lemma NoneDone(c: Config, n: string, job: Job, s0: Server, s: Server, w: Worklist)
    ensures AllCloser(c, n, job, s0, s, w, w.Keys)
  {
    hide WorkKey, Build, Belongs;
  }

  lemma LoopOnWay(c: Config, n: string, job: Job, s0: Server, s: Server, d: Deploy, turn: Turn, served: bool)
    requires ProjectJob(c, n, job) && OnRound(c, n, job, s0, s, d, served) && d.Working?
    requires Calm(c, n, job, s0) && (served ==> turn.fate.Served?)
    ensures var (t, e) := RoundStep(job, s, d, turn);
            && t.projects == s.projects && Calm(c, n, job, t) && NoWorse(c, n, job, s0, t)
            && (if e.Returned? then RoundDone(c, n, job, s0, t, e, served) else OnRound(c, n, job, s0, t, e, served))
  {
    hide WorkKey, Build, Belongs, RoundStep, LoopOk;
    var w := d.worklist;
    var (t, e) := RoundStep(job, s, d, turn);
    LoopTurn(c, n, job, s0, s, w, d, turn);
    LoopNoWorse(c, n, job, s0, t, w, Todo(e));
    LoopCalm(c, n, job, s0, t, w, Todo(e));
    if e.Returned? && served {
      LoopShrinks(c, n, job, s0, t, w);
      RankByItems(c, n, job, s0, w);
      RankZero(c, n, job, s0);
    }
  }

  lemma LoopCalm(c: Config, n: string, job: Job, s0: Server, s: Server, w: Worklist, todo: set<string>)
    requires LoopOk(c, n, job, s0, s, w, todo)
    ensures Calm(c, n, job, s)
  {
  }

  /** The rest of the visit after the deployer has returned. */
  lemma ReturnOnWay(c: Config, n: string, s0: Server, t: Server, now: int, clock: int, e: Deploy, served: bool)
    requires Live(c, s0, n) && Live(c, t, n) && t.projects[n] == s0.projects[n] && e.Returned?
    requires WasSeen(t.projects[n]) && ProjectFinalizer in t.projects[n].finalizers
    requires RoundDone(c, n, JobFor(c, t.projects[n]), s0, t, e, served)
    ensures var p := WithNamespace(c, t.projects[n]);
            OnPhase(c, n, s0, t, AfterDeploy(c, now, clock, p, e.ok, e.err, e.worklist), served)
  {
    hide WorkKey, Build, Belongs, Leave, NoGap, AllShrunk;
    var p := WithNamespace(c, t.projects[n]);
    if e.err != NoError {
      LeaveOnWay(c, n, s0, t, now, clock, p, Nothing, Wrap(e.err, "error reconciling dependent resources"), None,
                 served);
    } else {
      if served {
        RoundsShrink(c, s0, t, n);
      }
      if e.ok {
        LeaveOnWay(c, n, s0, t, now, clock, Noted(p, True, Ready, "Dependent resources successfully reconciled", clock),
                   Result(false, 600), NoError, Some(e.worklist), served);
      } else {
        LeaveOnWay(c, n, s0, t, now, clock,
                   Noted(p, Unknown, Processing, "Reconcilation of dependent resources triggered", clock),
                   Result(false, 1), NoError, None, served);
      }
    }
  }

  lemma FetchingOwnStep(c: Config, n: string, s0: Server, s: Server, l: Local, clock: int, pick: string, fate: Fate,
                        served: bool)
    requires OnWay(c, n, s0, s, l, served) && l.phase.Fetching? && (served ==> fate.Served?)
    ensures var (t, reply) := Exchange(c, s, n, l, pick, fate);
            OnWay(c, n, s0, t, Resume(c, l, clock, pick, reply), served)
  {
    hide WorkKey, Build, Belongs, AfterFetch, Left;
    FetchOnWay(c, n, s0, s, l.now, clock, served);
  }

  /** Adding the finalizer, if the call has an effect. */
  lemma AddingEffect(c: Config, s: Server, n: string, fate: Fate)
    requires n in s.projects && s.projects[n].name == n
    ensures var (t, reply) := Serve(s, UpdateProject(WithFinalizer(WithNamespace(c, s.projects[n]))), fate);
            && (t == s || t == Finalized(s, n))
            && (reply.GotProject? ==>
                  t == Finalized(s, n) && reply.project == WithVersion(s.projects[n], s.revision + 1))
            && (fate.Served? ==> reply.GotProject?)
  {
    hide WorkKey, Build, Belongs;
  }

  /** A project with the operator's finalizer, as stored under a new version. */
  function WithVersion(p: Project, revision: nat): Project {
    WithFinalizer(p).(resourceVersion := revision)
  }

  lemma AddingOwnStep(c: Config, n: string, s0: Server, s: Server, l: Local, clock: int, pick: string, fate: Fate,
                      served: bool)
    requires OnWay(c, n, s0, s, l, served) && l.phase.AddingFinalizer? && (served ==> fate.Served?)
    ensures var (t, reply) := Exchange(c, s, n, l, pick, fate);
            OnWay(c, n, s0, t, Resume(c, l, clock, pick, reply), served)
  {
    hide WorkKey, Build, Belongs, Leave, RoundsLeft, PutProject, Serve;
    var (t, reply) := Exchange(c, s, n, l, pick, fate);
    AddingEffect(c, s, n, fate);
    FinalizedLive(c, s, n);
    LiveElsewhere(c, n, s0, s);
    if reply.GotProject? {
      assert t.projects[n] == reply.project by { FinalizedIs(s, n); }
      LeaveOnWay(c, n, s0, t, l.now, clock, reply.project, Result(true, 0), NoError, None, served);
    } else {
      LeaveOnWay(c, n, s0, t, l.now, clock, WithFinalizer(l.phase.project), Nothing,
                 Wrap(ErrorOf(reply), "error adding finalizer"), None, served);
    }
  }

  lemma FinalizedIs(s: Server, n: string)
    requires n in s.projects && s.projects[n].name == n && !s.projects[n].deleting
    ensures n in Finalized(s, n).projects && Finalized(s, n).projects[n] == WithVersion(s.projects[n], s.revision + 1)
  {
  }

  lemma SameJob(c: Config, q: Project)
    ensures JobFor(c, WithNamespace(c, q)) == JobFor(c, q)
  {
  }

  lemma NoWorseLeft(c: Config, s: Server, t: Server, n: string)
    requires n in s.projects && n in t.projects && t.projects[n] == s.projects[n]
    requires NoWorse(c, n, JobFor(c, s.projects[n]), s, t)
    ensures Left(c, t, n) <= Left(c, s, n)
  {
    hide WorkKey, Build, Belongs;
  }

  lemma RoundOnWay(c: Config, n: string, job: Job, s0: Server, s: Server, d: Deploy, turn: Turn, served: bool)
    requires ProjectJob(c, n, job) && OnRound(c, n, job, s0, s, d, served)
    requires Calm(c, n, job, s0) && Calm(c, n, job, s) && (served ==> turn.fate.Served?)
    requires n in s.projects && job.owner == s.projects[n].uid
    ensures var (t, e) := RoundStep(job, s, d, turn);
            && t.projects == s.projects && Calm(c, n, job, t) && NoWorse(c, n, job, s0, t)
            && (if e.Returned? then RoundDone(c, n, job, s0, t, e, served) else OnRound(c, n, job, s0, t, e, served))
  {
    hide WorkKey, Build, Belongs, RoundStep, LoopOk, Calm, NoWorse;
    if d.Listing? {
      ListOnWay(c, n, job, s0, s, d, turn, served);
      NoWorseElsewhere(c, n, job, s0, s);
    } else {
      LoopOnWay(c, n, job, s0, s, d, turn, served);
    }
  }

  lemma DeployingOwnStep(c: Config, n: string, s0: Server, s: Server, l: Local, clock: int, pick: string, fate: Fate,
                         served: bool)
    requires OnWay(c, n, s0, s, l, served) && l.phase.Deploying? && (served ==> fate.Served?)
    ensures var (t, reply) := Exchange(c, s, n, l, pick, fate);
            OnWay(c, n, s0, t, Resume(c, l, clock, pick, reply), served)
  {
    hide WorkKey, Build, Belongs, RoundStep, AfterDeploy, OnRound, NoWorse;
    var q, d, turn := s.projects[n], l.phase.d, Turn(pick, fate);
    var job := JobFor(c, q);
    BuildIsProjectJob(c, q);
    SameJob(c, q);
    DeployFated(c, s, n, l, clock, pick, fate);
    RoundOnWay(c, n, job, s0, s, d, turn, served);
    var (t, e) := RoundStep(job, s, d, turn);
    StillLive(c, s, t, n);
    NoWorseLeft(c, s0, t, n);
    if e.Returned? {
      ReturnOnWay(c, n, s0, t, l.now, clock, e, served);
    }
  }

  lemma StatusWriteEffect(s: Server, n: string, p: Project, fate: Fate)
    requires n in s.projects && p.name == n
    ensures var t := Serve(s, UpdateStatus(p), fate).0; t == s || t == Lifecycle.Reported(s, n, p.status)
    ensures fate.Served? && UpToDate(s, p) ==> Serve(s, UpdateStatus(p), fate).0 == Lifecycle.Reported(s, n, p.status)
  {
    hide WorkKey, Build, Belongs;
  }

  lemma ReportingOwnStep(c: Config, n: string, s0: Server, s: Server, l: Local, clock: int, pick: string, fate: Fate,
                         served: bool)
    requires OnWay(c, n, s0, s, l, served) && l.phase.Reporting? && (served ==> fate.Served?)
    ensures var (t, reply) := Exchange(c, s, n, l, pick, fate);
            OnWay(c, n, s0, t, Resume(c, l, clock, pick, reply), served)
  {
    hide WorkKey, Build, Belongs, RoundsLeft, PutProject, Serve;
    StatusWriteEffect(s, n, l.phase.project, fate);
    ReportedLive(c, s, n, l.phase.project.status);
  }

  /** Every step the reconciliation takes itself keeps it on its way. */
  lemma OwnStepOnWay(c: Config, n: string, s0: Server, s: Server, l: Local, clock: int, pick: string, fate: Fate,
                     served: bool)
    requires OnWay(c, n, s0, s, l, served) && !l.phase.Done? && (served ==> fate.Served?)
    ensures var (t, reply) := Exchange(c, s, n, l, pick, fate);
            OnWay(c, n, s0, t, Resume(c, l, clock, pick, reply), served)
  {
    hide WorkKey, Build, Belongs, AfterFetch, Live, Left;
    match l.phase
    case Fetching => FetchingOwnStep(c, n, s0, s, l, clock, pick, fate, served);
    case AddingFinalizer(_) => AddingOwnStep(c, n, s0, s, l, clock, pick, fate, served);
    case Deploying(_, _) => DeployingOwnStep(c, n, s0, s, l, clock, pick, fate, served);
    case Reporting(_, _, _, _) => ReportingOwnStep(c, n, s0, s, l, clock, pick, fate, served);
  }

  // ---- Whole runs -------------------------------------------------------------------------------

  /** A step that is aloof of n or belongs to its reconciliations; served: none of their calls fails. */
  predicate Among(c: Config, step: Step, n: string, served: bool) {
    || Aloof(c, step, n)
    || (step.Begin? && step.name == n)
    || (step.Advance? && step.name == n && (served ==> step.fate.Served?))
  }

  lemma ElsewhereSelf(c: Config, n: string, sys: System)
    requires Inv(c, sys)
    ensures Elsewhere(c, n, sys.server, sys.server)
  {
    hide WorkKey, Build, Belongs;
    InvOwnsItsKeys(c, sys, n);
  }

  /** What a reconciliation under way, begun at s0, knows after a step of the run. */
  lemma OnWayNext(c: Config, sys: System, step: Step, n: string, s0: Server, served: bool)
    requires Inv(c, sys) && Among(c, step, n, served) && Running(sys, n)
    requires OnWay(c, n, s0, sys.server, sys.active[n], served)
    ensures var next := Next(c, sys, step);
            Inv(c, next) && n in next.active && OnWay(c, n, s0, next.server, next.active[n], served)
  {
    hide WorkKey, Build, Belongs, OnWay, Inv;
    NextKeeps(c, sys, step);
    if Aloof(c, step, n) {
      AloofElsewhere(c, sys, step, n);
      OnWayElsewhere(c, n, s0, sys.server, Next(c, sys, step).server, sys.active[n], served);
    } else if step.Advance? {
      NextIs(c, sys, n, step.clock, step.pick, step.fate);
      OwnStepOnWay(c, n, s0, sys.server, sys.active[n], step.clock, step.pick, step.fate, served);
    }
  }

  lemma BeginsOnWay(c: Config, sys: System, n: string, now: int, served: bool)
    requires Inv(c, sys) && Live(c, sys.server, n)
    ensures OnWay(c, n, sys.server, sys.server, Local(now, Fetching), served)
  {
    hide WorkKey, Build, Belongs, Live, Left, Elsewhere;
    ElsewhereSelf(c, n, sys);
    LiveHasProject(c, sys.server, n);
  }

  lemma LiveHasProject(c: Config, s: Server, n: string)
    requires Live(c, s, n)
    ensures n in s.projects
  {
  }

  /** How many visits to n a run completes. */
  function Completed(c: Config, sys: System, steps: seq<Step>, n: string): nat
    decreases |steps|
  {
    if steps == [] then 0
    else
      var next := Next(c, sys, steps[0]);
      (if Running(sys, n) && !Running(next, n) then 1 else 0) + Completed(c, next, steps[1..], n)
  }

  /** k visits have been completed since start, and if another one is under way, it is on its way. */
  ghost predicate Following(c: Config, n: string, start: Server, sys: System, k: nat) {
    if Running(sys, n) then
      exists s0 :: Approaches(c, n, start, s0, k) && OnWay(c, n, s0, sys.server, sys.active[n], true)
    else
      Approaches(c, n, start, sys.server, k)
  }

  lemma VisitDone(c: Config, n: string, start: Server, s0: Server, s: Server, l: Local, k: nat)
    requires Approaches(c, n, start, s0, k) && OnWay(c, n, s0, s, l, true) && l.phase.Done?
    ensures Approaches(c, n, start, s, k + 1)
  {
    hide WorkKey, Build, Belongs, Live, Left;
  }

  lemma ApproachesElsewhere(c: Config, n: string, start: Server, s: Server, t: Server, k: nat)
    requires Approaches(c, n, start, s, k) && Elsewhere(c, n, s, t)
    ensures Approaches(c, n, start, t, k)
  {
    hide WorkKey, Build, Belongs, RoundsLeft;
    LiveElsewhere(c, n, s, t);
  }

  lemma FollowingNext(c: Config, sys: System, step: Step, n: string, start: Server, k: nat)
    requires Inv(c, sys) && Following(c, n, start, sys, k) && Among(c, step, n, true)
    ensures var next := Next(c, sys, step);
            Inv(c, next) && Following(c, n, start, next, if Running(sys, n) && !Running(next, n) then k + 1 else k)
  {
    hide WorkKey, Build, Belongs, OnWay, Inv, Live, Left;
    NextKeeps(c, sys, step);
    var next := Next(c, sys, step);
    if Running(sys, n) {
      var s0 :| Approaches(c, n, start, s0, k) && OnWay(c, n, s0, sys.server, sys.active[n], true);
      OnWayNext(c, sys, step, n, s0, true);
      if !Running(next, n) {
        VisitDone(c, n, start, s0, next.server, next.active[n], k);
      }
    } else if Aloof(c, step, n) {
      AloofElsewhere(c, sys, step, n);
      ApproachesElsewhere(c, n, start, sys.server, next.server, k);
    } else if step.Begin? {
      BeginsOnWay(c, sys, n, step.now, true);
    }
  }

  lemma {:induction false} FollowingRun(c: Config, sys: System, steps: seq<Step>, n: string, start: Server, k: nat)
    requires Inv(c, sys) && Following(c, n, start, sys, k) && forall step | step in steps :: Among(c, step, n, true)
    ensures Following(c, n, start, Run(c, sys, steps), k + Completed(c, sys, steps, n))
    decreases |steps|
  {
    hide WorkKey, Build, Belongs, Following, Inv;
    if steps != [] {
      FollowingNext(c, sys, steps[0], n, start, k);
      var next := Next(c, sys, steps[0]);
      FollowingRun(c, next, steps[1..], n, start, if Running(sys, n) && !Running(next, n) then k + 1 else k);
    }
  }

  /** k completed visits took the project from s to t: each brought it one step closer; once there was
      nothing left to do, or after five, it is Ready for its generation with all its objects in place. */
  ghost predicate ComesThrough(c: Config, n: string, s: Server, t: Server, k: nat) {
    && n in s.projects && n in t.projects && SameProject(s.projects[n], t.projects[n]) && Live(c, t, n)
    && Left(c, t, n) <= (if k <= Left(c, s, n) then Left(c, s, n) - k else 0)
    && (k > Left(c, s, n) || k >= 5 ==> IsReady(t.projects[n]) && NoGap(c, n, JobFor(c, t.projects[n]), t))
  }

  /** While a visit is under way that found nothing left to do, the project stays as it was found. */
  lemma FollowingComesThrough(c: Config, n: string, start: Server, sys: System, k: nat)
    requires Following(c, n, start, sys, k)
    ensures ComesThrough(c, n, start, sys.server, k)
  {
    hide WorkKey, Build, Belongs, RoundsLeft, Calm, NoGap;
    FollowingHas(c, n, start, sys, k);
    LeftAtMostFour(c, start, n);
    if k > Left(c, start, n) {
      NothingLeft(c, sys.server, n);
    }
  }

  lemma FollowingHas(c: Config, n: string, start: Server, sys: System, k: nat)
    requires Following(c, n, start, sys, k)
    ensures n in start.projects
  {
    hide WorkKey, Build, Belongs, RoundsLeft, Calm, NoGap;
  }

  /** Progress in company: whatever the others do elsewhere, other projects' reconciliations with failing
      and lost calls included, every completed visit brings a live project one step closer, however the
      steps interleave; after five visits it is Ready for its generation, and it stays so ever after. */
  lemma ReadyInCompany(c: Config, sys: System, steps: seq<Step>, n: string)
    requires Inv(c, sys) && !Running(sys, n) && Live(c, sys.server, n)
    requires forall step | step in steps :: Among(c, step, n, true)
    ensures ComesThrough(c, n, sys.server, Run(c, sys, steps).server, Completed(c, sys, steps, n))
  {
    hide WorkKey, Build, Belongs, Calm, Left, Live, NoGap, ComesThrough, Following;
    StartsFollowing(c, sys, n);
    FollowingRun(c, sys, steps, n, sys.server, 0);
    FollowingComesThrough(c, n, sys.server, Run(c, sys, steps), Completed(c, sys, steps, n));
  }

  lemma StartsFollowing(c: Config, sys: System, n: string)
    requires !Running(sys, n) && Live(c, sys.server, n)
    ensures Following(c, n, sys.server, sys, 0) && n in sys.server.projects
  {
    hide WorkKey, Build, Belongs, RoundsLeft, Calm;
  }

  lemma LeftAtMostFour(c: Config, s: Server, n: string)
    requires n in s.projects
    ensures Left(c, s, n) <= 4
  {
    hide WorkKey, Build, Belongs, NoGap;
  }

  // ---- Failing calls ----------------------------------------------------------------------------

  /** Nothing has been lost since start. */
  ghost predicate Enduring(c: Config, n: string, start: Server, sys: System) {
    && Unhurt(c, n, start, sys.server)
    && (Running(sys, n) ==> exists s0 :: Unhurt(c, n, start, s0) && OnWay(c, n, s0, sys.server, sys.active[n], false))
  }

  /** The project is still live, has no more to go, and is as users left it. */
  ghost predicate Unhurt(c: Config, n: string, s: Server, t: Server) {
    Live(c, s, n) && Live(c, t, n) && SameProject(s.projects[n], t.projects[n]) && Left(c, t, n) <= Left(c, s, n)
  }

  lemma OnWayUnhurt(c: Config, n: string, start: Server, s0: Server, s: Server, l: Local)
    requires Unhurt(c, n, start, s0) && OnWay(c, n, s0, s, l, false)
    ensures Unhurt(c, n, start, s)
  {
    hide WorkKey, Build, Belongs, Left, Calm;
  }

  lemma EnduringNext(c: Config, sys: System, step: Step, n: string, start: Server)
    requires Inv(c, sys) && Enduring(c, n, start, sys) && Among(c, step, n, false)
    ensures Inv(c, Next(c, sys, step)) && Enduring(c, n, start, Next(c, sys, step))
  {
    hide WorkKey, Build, Belongs, OnWay, Inv, Live, Left;
    NextKeeps(c, sys, step);
    var next := Next(c, sys, step);
    if Running(sys, n) {
      var s0 :| Unhurt(c, n, start, s0) && OnWay(c, n, s0, sys.server, sys.active[n], false);
      OnWayNext(c, sys, step, n, s0, false);
      OnWayUnhurt(c, n, start, s0, next.server, next.active[n]);
    } else if Aloof(c, step, n) {
      AloofElsewhere(c, sys, step, n);
      UnhurtElsewhere(c, n, start, sys.server, next.server);
    } else if step.Begin? {
      BeginsOnWay(c, sys, n, step.now, false);
    }
  }

  lemma UnhurtElsewhere(c: Config, n: string, start: Server, s: Server, t: Server)
    requires Unhurt(c, n, start, s) && Elsewhere(c, n, s, t)
    ensures Unhurt(c, n, start, t)
  {
    hide WorkKey, Build, Belongs, RoundsLeft;
    LiveElsewhere(c, n, s, t);
  }

  lemma {:induction false} EnduringRun(c: Config, sys: System, steps: seq<Step>, n: string, start: Server)
    requires Inv(c, sys) && Enduring(c, n, start, sys)
    requires forall step | step in steps :: Among(c, step, n, false)
    ensures Enduring(c, n, start, Run(c, sys, steps)) && Unhurt(c, n, start, Run(c, sys, steps).server)
    decreases |steps|
  {
    hide WorkKey, Build, Belongs, Unhurt, OnWay, Inv;
    if steps != [] {
      EnduringNext(c, sys, steps[0], n, start);
      EnduringRun(c, Next(c, sys, steps[0]), steps[1..], n, start);
    }
  }

  /** Partial failure of whole visits is safe: however the calls of any number of reconciliations of a live
      project fail or get lost, wherever the last one is cut, and whatever others do elsewhere meanwhile,
      the project stays live and no more is left to do than before. */
  lemma FailingVisitsAreSafe(c: Config, sys: System, steps: seq<Step>, n: string)
    requires Inv(c, sys) && !Running(sys, n) && Live(c, sys.server, n)
    requires forall step | step in steps :: Among(c, step, n, false)
    ensures var s, t := sys.server, Run(c, sys, steps).server;
            && n in s.projects && n in t.projects && SameProject(s.projects[n], t.projects[n])
            && Live(c, t, n) && Left(c, t, n) <= Left(c, s, n)
  {
    hide WorkKey, Build, Belongs, Calm, RoundsLeft;
    EnduringRun(c, sys, steps, n, sys.server);
  }

  // ---- Failing deletions ------------------------------------------------------------------------

  /** Of what u owned in s, nothing has been touched in t but namespaces marked for deletion; nothing new
      is owned. */
  predicate OnlyShrunk(s: Server, t: Server, u: string) {
    forall k | k in t.objects && OwnerOf(t.objects[k]) == Some(u) ::
      && k in s.objects && OwnerOf(s.objects[k]) == Some(u)
      && (t.objects[k] == s.objects[k] || (k.kind.Namespace? && t.objects[k].terminating))
  }

  /** A deletion under way in company: the project is leaving or gone, and no reconciliation is left that
      read it before. */
  ghost predicate Withdrawing(sys: System, n: string, u: string) {
    && Doomed(sys, n, u)
    && (if n in sys.server.projects then
          Leaving(sys.server, n) && sys.server.projects[n].uid == u && Unblocked(sys.server, u)
        else
          Unowned(sys.server, u))
  }

  lemma ShrunkUnblocked(s: Server, t: Server, u: string)
    requires OnlyShrunk(s, t, u)
    ensures Unblocked(s, u) ==> Unblocked(t, u)
    ensures Unowned(s, u) ==> Unowned(t, u)
  {
    hide WorkKey, Build, Belongs;
  }

  /** A deletion that takes effect removes an object that nobody holds, and marks a namespace. */
  lemma DeleteShrinks(s: Server, k: Key, revision: nat, u: string)
    requires ServerOk(s) && Unblocked(s, u)
    ensures OnlyShrunk(s, Apply(s, Delete(k, revision)).0, u)
  {
    hide WorkKey, Build, Belongs;
  }

  lemma OwnDeletionShrinks(c: Config, s: Server, n: string, l: Local, pick: string, fate: Fate, u: string)
    requires c.namespacePrefix != "" && ServerOk(s) && PhaseOk(c, s, n, l.phase) && Unblocked(s, u)
    requires l.phase.Deploying? ==> l.phase.project.deleting
    ensures OnlyShrunk(s, Exchange(c, s, n, l, pick, fate).0, u)
  {
    hide WorkKey, Build, Belongs;
    var t := Exchange(c, s, n, l, pick, fate).0;
    if t.objects != s.objects {
      ChangesByDeployer(c, s, n, l, pick, fate);
      DeletesOnly(c, s, n, l.phase.project, l.phase.d, pick);
      var call := PendingCall(c, n, l, pick).value;
      DeleteShrinks(s, call.key, call.revision, u);
    }
  }

  /** The project of n is as before up to status and version. */
  predicate StillLeaving(s: Server, t: Server, n: string)
    requires n in s.projects
  {
    && n in t.projects && t.projects[n].uid == s.projects[n].uid
    && t.projects[n].deleting && t.projects[n].finalizers == {ProjectFinalizer}
  }

  lemma UpdateLeaves(c: Config, s: Server, n: string, phase: Phase, call: Call, fate: Fate)
    requires ServerOk(s) && PhaseOk(c, s, n, phase) && Leaving(s, n)
    requires match phase
             case AddingFinalizer(p) => call == UpdateProject(WithFinalizer(p))
             case RemovingFinalizer(p) => call == UpdateProject(WithoutFinalizer(p))
             case Reporting(p, _, _, _) => call == UpdateStatus(p)
             case _ => false
    ensures var t := Serve(s, call, fate).0;
            StillLeaving(s, t, n) || (n !in t.projects && Unowned(s, s.projects[n].uid))
  {
    hide WorkKey, Build, Belongs;
    match phase
    case AddingFinalizer(p) => assert !UpToDate(s, WithFinalizer(p));
    case RemovingFinalizer(p) => assert p.uid == s.projects[n].uid;
    case Reporting(p, _, _, _) => assert p.name == n;
  }

  /** What a step of its own reconciliation, whatever its fate, does to a leaving project. */
  lemma OwnStepLeaves(c: Config, s: Server, n: string, l: Local, pick: string, fate: Fate)
    requires ServerOk(s) && PhaseOk(c, s, n, l.phase) && Leaving(s, n)
    ensures var t := Exchange(c, s, n, l, pick, fate).0;
            StillLeaving(s, t, n) || (n !in t.projects && Unowned(s, s.projects[n].uid))
  {
    hide WorkKey, Build, Belongs, PhaseOk, Unowned;
    if l.phase.Deploying? || l.phase.Fetching? || l.phase.Done? {
      SameProjects(c, s, n, l, pick, fate);
    } else {
      UpdateLeaves(c, s, n, l.phase, PendingCall(c, n, l, pick).value, fate);
    }
  }

  lemma AloofShrinks(c: Config, n: string, s: Server, t: Server, u: string)
    requires Elsewhere(c, n, s, t) && n in s.projects && s.projects[n].uid == u
    ensures OnlyShrunk(s, t, u)
  {
    hide WorkKey, Build, Belongs;
    forall k | k in t.objects && OwnerOf(t.objects[k]) == Some(u)
      ensures k in s.objects && t.objects[k] == s.objects[k]
    {
      assert Belongs(c, n, k);
    }
  }

  lemma UnownedStays(s: Server, t: Server, u: string)
    requires NoneGained(s, t, u) && Unowned(s, u)
    ensures OnlyShrunk(s, t, u) && Unowned(t, u)
  {
    hide WorkKey, Build, Belongs;
  }

  lemma DoomedDeploys(c: Config, sys: System, n: string, u: string)
    requires Inv(c, sys) && Doomed(sys, n, u) && n in sys.active && n in sys.server.projects
    requires sys.server.projects[n].uid == u && sys.active[n].phase.Deploying?
    ensures sys.active[n].phase.project.deleting
  {
    hide WorkKey, Build, Belongs;
    assert PhaseOk(c, sys.server, n, sys.active[n].phase);
  }

  lemma WithdrawingNext(c: Config, sys: System, step: Step, n: string, u: string)
    requires Inv(c, sys) && Withdrawing(sys, n, u) && Among(c, step, n, false)
    ensures var next := Next(c, sys, step);
            Inv(c, next) && Withdrawing(next, n, u) && OnlyShrunk(sys.server, next.server, u)
  {
    hide WorkKey, Build, Belongs, Inv;
    NextKeeps(c, sys, step);
    InvServer(c, sys, n);
    var next := Next(c, sys, step);
    InvServer(c, next, n);
    DoomedStep(c, sys, step, n, u);
    if n !in sys.server.projects {
      UnownedStays(sys.server, next.server, u);
      StaysAway(c, sys, step, n);
    } else if Aloof(c, step, n) {
      AloofElsewhere(c, sys, step, n);
      AloofShrinks(c, n, sys.server, next.server, u);
      ShrunkUnblocked(sys.server, next.server, u);
    } else if step.Advance? && Running(sys, n) {
      NextIs(c, sys, n, step.clock, step.pick, step.fate);
      if sys.active[n].phase.Deploying? {
        DoomedDeploys(c, sys, n, u);
      }
      OwnStepLeaves(c, sys.server, n, sys.active[n], step.pick, step.fate);
      OwnDeletionShrinks(c, sys.server, n, sys.active[n], step.pick, step.fate, u);
      ShrunkUnblocked(sys.server, next.server, u);
    }
  }

  lemma InvServer(c: Config, sys: System, n: string)
    requires Inv(c, sys)
    ensures c.namespacePrefix != "" && ServerOk(sys.server)
    ensures n in sys.active ==> PhaseOk(c, sys.server, n, sys.active[n].phase)
  {
  }

  /** A project that is gone stays away while nobody creates it again. */
  lemma StaysAway(c: Config, sys: System, step: Step, n: string)
    requires Inv(c, sys) && n !in sys.server.projects && Among(c, step, n, false)
    ensures n !in Next(c, sys, step).server.projects
  {
    hide WorkKey, Build, Belongs, Inv;
    if Aloof(c, step, n) {
      AloofElsewhere(c, sys, step, n);
    } else if step.Advance? && Running(sys, n) {
      InvServer(c, sys, n);
      NextIs(c, sys, n, step.clock, step.pick, step.fate);
      CallCreatesNone(c, sys.server, n, sys.active[n], step.pick, step.fate);
    }
  }

  lemma CallCreatesNone(c: Config, s: Server, n: string, l: Local, pick: string, fate: Fate)
    requires ServerOk(s) && n !in s.projects
    ensures n !in Exchange(c, s, n, l, pick, fate).0.projects
  {
    hide WorkKey, Build, Belongs;
    if PendingCall(c, n, l, pick).Some? {
      ApplyCreatesNone(s, PendingCall(c, n, l, pick).value, fate, n);
    }
  }

  lemma ApplyCreatesNone(s: Server, call: Call, fate: Fate, n: string)
    requires ServerOk(s) && n !in s.projects
    ensures n !in Serve(s, call, fate).0.projects
  {
    hide WorkKey, Build, Belongs;
  }

  lemma ShrunkTrans(s: Server, t: Server, r: Server, u: string)
    requires OnlyShrunk(s, t, u) && OnlyShrunk(t, r, u)
    ensures OnlyShrunk(s, r, u)
  {
    hide WorkKey, Build, Belongs;
  }

  /** Partial failure of a deletion is safe: however the calls of any number of reconciliations of a leaving
      project fail or get lost, wherever the last one is cut, and whatever others do elsewhere meanwhile,
      the project stays leaving and unblocked until it owns nothing and goes, and what it owns only
      shrinks. */
  lemma {:induction false} FailingDeletionsAreSafe(c: Config, sys: System, steps: seq<Step>, n: string, u: string)
    requires Inv(c, sys) && Withdrawing(sys, n, u)
    requires forall step | step in steps :: Among(c, step, n, false)
    ensures Withdrawing(Run(c, sys, steps), n, u) && OnlyShrunk(sys.server, Run(c, sys, steps).server, u)
    decreases |steps|
  {
    hide WorkKey, Build, Belongs, Inv, Withdrawing, Next;
    if steps != [] {
      var next := Next(c, sys, steps[0]);
      WithdrawingNext(c, sys, steps[0], n, u);
      FailingDeletionsAreSafe(c, next, steps[1..], n, u);
      ShrunkTrans(sys.server, next.server, Run(c, next, steps[1..]).server, u);
    }
  }
}
