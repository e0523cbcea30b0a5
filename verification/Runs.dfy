/** The whole system: the API server, any number of reconciliations in flight (at most one per
    project name), and everybody else; and the invariant every run keeps. */
module Runs {
  import opened Kubernetes
  import opened Names
  import opened ApiServer
  import opened Conditions
  import opened Deployment
  import opened Compilation
  import opened Controller

  /** audit records, for each project UID, the joined listing of the reconciliation that last wrote a
      status resting on one. */
  datatype System = System(server: Server, active: map<string, Local>, audit: map<string, Worklist>)

  datatype Step =
    | Environment(action: Action)
    | Begin(name: string, now: int)
    | Advance(name: string, clock: int, pick: string, fate: Fate)

  predicate Running(sys: System, n: string) {
    n in sys.active && !sys.active[n].phase.Done?
  }

  /** The server after the pending call of n, and the reply n receives. */
  function Exchange(c: Config, s: Server, n: string, l: Local, pick: string, fate: Fate): (Server, Reply) {
    match PendingCall(c, n, l, pick)
    case None => (s, Accepted)
    case Some(call) => Serve(s, call, fate)
  }

  function Audited(audit: map<string, Worklist>, s: Server, l: Local, fate: Fate): map<string, Worklist> {
    if l.phase.Reporting? && l.phase.basis.Some? && !fate.Dropped? && UpToDate(s, l.phase.project)
    then audit[l.phase.project.uid := l.phase.basis.value] else audit
  }

  function Next(c: Config, sys: System, step: Step): System {
    match step
    case Environment(a) => sys.(server := Act(sys.server, a))
    case Begin(n, now) =>
      if Running(sys, n) then sys else sys.(active := sys.active[n := Local(now, Fetching)])
    case Advance(n, clock, pick, fate) =>
      if !Running(sys, n) then sys
      else
        var l := sys.active[n];
        var (t, reply) := Exchange(c, sys.server, n, l, pick, fate);
        System(t, sys.active[n := Resume(c, l, clock, pick, reply)], Audited(sys.audit, sys.server, l, fate))
  }

  function Run(c: Config, sys: System, steps: seq<Step>): System
    decreases |steps|
  {
    if steps == [] then sys else Run(c, Next(c, sys, steps[0]), steps[1..])
  }

  // ---- The invariant ------------------------------------------------------------------------

  /** Every owned object belongs to exactly the project its owner label names: that project exists,
      carries the operator's finalizer, and its name generates the object's key. */
  predicate Homed(c: Config, s: Server) {
    forall k | k in s.objects && OwnerOf(s.objects[k]).Some? ::
      var u := OwnerOf(s.objects[k]).value;
      && u in s.issued && s.issued[u] in s.projects
      && s.projects[s.issued[u]].uid == u
      && ProjectFinalizer in s.projects[s.issued[u]].finalizers
      && Belongs(c, s.issued[u], k)
  }

  function SpecJob(c: Config, name: string, uid: string, spec: Spec): Job {
    Job(Managed, LabelKeyOwner, AnnotationKeyDigest, c.lib.digest, Build(c, name, spec), uid)
  }

  /** The listed objects in w are ready, owned by the UID, and their keys and digests are exactly
      those built from the spec. */
  predicate Evidence(c: Config, name: string, uid: string, spec: Spec, w: Worklist) {
    var desired := AllDesired(SpecJob(c, name, uid, spec));
    && w.Keys == desired.Keys
    && forall x | x in w ::
         && w[x].was.Some? && OwnerOf(w[x].was.value) == Some(uid)
         && WorkKey(w[x].was.value.key) == x
         && SameDigest("cs.sap.com/digest", w[x].was.value, desired[x]) && InGoodOrder(w[x].was.value)
  }

  /** Persisted status is coherent, never ahead of the generation, and truthful when Ready. */
  predicate Truthful(c: Config, p: Project, audit: map<string, Worklist>) {
    && Coherent(p.status) && p.status.observedGeneration <= p.generation
    && (p.status.state == Ready ==> ProjectFinalizer in p.finalizers)
    && (p.status.state == Ready && p.status.observedGeneration == p.generation ==>
          p.uid in audit && Evidence(c, p.name, p.uid, p.spec, audit[p.uid]))
  }

  predicate Statuses(c: Config, s: Server, audit: map<string, Worklist>) {
    forall n | n in s.projects :: Truthful(c, s.projects[n], audit)
  }

  predicate Known(s: Server, n: string, p: Project) {
    p.name == n && p.uid in s.issued && s.issued[p.uid] == n && p.resourceVersion <= s.revision
  }

  predicate SameVersion(s: Server, n: string, p: Project) {
    n in s.projects && s.projects[n].resourceVersion == p.resourceVersion
  }

  /** While the version is unchanged, the project is as it was read, up to the noted namespace. */
  predicate AsRead(s: Server, n: string, p: Project) {
    SameVersion(s, n, p) ==>
      p == s.projects[n].(status := s.projects[n].status.(namespace := p.status.namespace))
  }

  /** The project is still there, holds the operator's finalizer, and was not undeleted. */
  predicate Held(s: Server, n: string, p: Project) {
    && n in s.projects && s.projects[n].uid == p.uid
    && ProjectFinalizer in s.projects[n].finalizers
    && (p.deleting ==> s.projects[n].deleting)
  }

  /** A listed object o under worklist key x: owned by u, of project n, and still exactly the stored
      one as long as the resource version says so. */
  predicate WasOk(c: Config, s: Server, n: string, u: string, x: string, o: Stored) {
    && Belongs(c, n, o.key) && x == WorkKey(o.key)
    && OwnerOf(o) == Some(u) && o.resourceVersion <= s.revision
    && (Addressable(o.key) && o.key in s.objects && s.objects[o.key].resourceVersion == o.resourceVersion
        ==> s.objects[o.key] == o)
  }

  predicate ListedOk(c: Config, s: Server, n: string, u: string, w: Worklist) {
    forall x | x in w && w[x].was.Some? :: WasOk(c, s, n, u, x, w[x].was.value)
  }

  predicate WantsAre(w: Worklist, desired: map<string, Stored>) {
    && desired.Keys <= w.Keys
    && forall x | x in w :: w[x].want == if x in desired then Some(desired[x]) else None
  }

  /** The kinds listed so far. */
  predicate ListedKind(d: Deploy, k: Kind) {
    d.Listing? ==> k in Managed[..if d.next <= |Managed| then d.next else 0]
  }

  /** Every owned object of the kinds listed so far is in the worklist. */
  predicate Covered(s: Server, u: string, d: Deploy) {
    forall k | k in s.objects && OwnerOf(s.objects[k]) == Some(u) && ListedKind(d, k.kind) ::
      WorkKey(k) in d.worklist && d.worklist[WorkKey(k)].was.Some?
  }

  ghost predicate DeployOk(c: Config, s: Server, n: string, p: Project, d: Deploy) {
    && Counted(JobFor(c, p), d)
    && ListedOk(c, s, n, p.uid, d.worklist)
    && (d.Working? || (d.Returned? && d.err == NoError) ==> WantsAre(d.worklist, AllDesired(JobFor(c, p))))
    && (p.deleting && !(d.Returned? && d.err != NoError) ==> Covered(s, p.uid, d))
  }

  predicate Unowned(s: Server, u: string) {
    forall k | k in s.objects :: OwnerOf(s.objects[k]) != Some(u)
  }

  predicate ReportOk(c: Config, s: Server, n: string, p: Project, basis: Option<Worklist>) {
    && Known(s, n, p)
    && Coherent(p.status) && p.status.observedGeneration == p.generation
    && (SameVersion(s, n, p) ==>
          && s.projects[n].spec == p.spec && s.projects[n].generation == p.generation
          && (p.status.state == Ready ==> ProjectFinalizer in s.projects[n].finalizers))
    && (p.status.state == Ready ==> basis.Some? && Evidence(c, n, p.uid, p.spec, basis.value))
  }

  predicate ReadOk(s: Server, n: string, p: Project) {
    Known(s, n, p) && AsRead(s, n, p) && Coherent(p.status)
  }

  ghost predicate PhaseOk(c: Config, s: Server, n: string, phase: Phase) {
    match phase
    case Fetching => true
    case Done(_, _) => true
    case AddingFinalizer(p) => ReadOk(s, n, p) && !p.deleting && ProjectFinalizer !in p.finalizers
    case Deploying(p, d) =>
      && ReadOk(s, n, p) && Held(s, n, p) && ProjectFinalizer in p.finalizers
      && (p.deleting ==> p.finalizers == {ProjectFinalizer})
      && !d.Returned? && DeployOk(c, s, n, p, d)
    case RemovingFinalizer(p) =>
      && ReadOk(s, n, p) && Held(s, n, p) && p.deleting && p.finalizers == {ProjectFinalizer}
      && Unowned(s, p.uid)
    case Reporting(p, result, err, basis) => ReportOk(c, s, n, p, basis) && !Quiet(result, err)
  }

  ghost predicate ServerInv(c: Config, s: Server, audit: map<string, Worklist>) {
    ServerOk(s) && Homed(c, s) && Statuses(c, s, audit)
  }

  ghost predicate Inv(c: Config, sys: System) {
    && c.namespacePrefix != ""
    && ServerInv(c, sys.server, sys.audit)
    && forall n | n in sys.active :: PhaseOk(c, sys.server, n, sys.active[n].phase)
  }

  // ---- Steps of others leave a reconciliation's knowledge intact ------------------------------

  /** The UID a reconciliation works for. */
  function WorksFor(phase: Phase): string {
    match phase
    case AddingFinalizer(p) => p.uid
    case Deploying(p, _) => p.uid
    case RemovingFinalizer(p) => p.uid
    case Reporting(p, _, _, _) => p.uid
    case _ => ""
  }

  lemma DeployStable(c: Config, s: Server, t: Server, n: string, p: Project, d: Deploy)
    requires DeployOk(c, s, n, p, d) && Moves(s, t) && (p.deleting ==> NoneGained(s, t, p.uid))
    ensures DeployOk(c, t, n, p, d)
  {
    forall x | x in d.worklist && d.worklist[x].was.Some?
      ensures WasOk(c, t, n, p.uid, x, d.worklist[x].was.value)
    {
      assert WasOk(c, s, n, p.uid, x, d.worklist[x].was.value);
    }
  }

  lemma PhaseStable(c: Config, s: Server, t: Server, n: string, phase: Phase)
    requires PhaseOk(c, s, n, phase) && Moves(s, t) && Keeps(s, t, n) && NoneGained(s, t, WorksFor(phase))
    ensures PhaseOk(c, t, n, phase)
  {
    match phase
    case Deploying(p, d) => DeployStable(c, s, t, n, p, d);
    case _ =>
  }

  // ---- Environment steps --------------------------------------------------------------------

  lemma ActStatuses(c: Config, s: Server, a: Action, audit: map<string, Worklist>)
    requires ServerOk(s) && Statuses(c, s, audit)
    ensures Statuses(c, Act(s, a), audit)
  {
  }

  lemma ActHomed(c: Config, s: Server, a: Action)
    requires ServerOk(s) && Homed(c, s)
    ensures Homed(c, Act(s, a))
  {
    var t := Act(s, a);
    ActMoves(s, a);
    forall k | k in t.objects && OwnerOf(t.objects[k]).Some?
      ensures var u := OwnerOf(t.objects[k]).value;
        && u in t.issued && t.issued[u] in t.projects
        && t.projects[t.issued[u]].uid == u
        && ProjectFinalizer in t.projects[t.issued[u]].finalizers
        && Belongs(c, t.issued[u], k)
    {
      var u := OwnerOf(t.objects[k]).value;
      ActGainsNone(s, a, u);
      ActKeeps(s, a, s.issued[u]);
    }
  }

  lemma EnvironmentKeeps(c: Config, sys: System, a: Action)
    requires Inv(c, sys)
    ensures Inv(c, Next(c, sys, Environment(a)))
  {
    ActOk(sys.server, a);
    ActStatuses(c, sys.server, a, sys.audit);
    ActHomed(c, sys.server, a);
    forall n | n in sys.active ensures PhaseOk(c, Act(sys.server, a), n, sys.active[n].phase) {
      ActMoves(sys.server, a);
      ActKeeps(sys.server, a, n);
      ActGainsNone(sys.server, a, WorksFor(sys.active[n].phase));
      PhaseStable(c, sys.server, Act(sys.server, a), n, sys.active[n].phase);
    }
  }
}
