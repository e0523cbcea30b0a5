/** What holds in every run of the system: any number of projects, any interleaving of their
    reconciliations with users, controllers and garbage collection, any failed or lost calls. */
module Guarantees {
  import opened Kubernetes
  import opened Names
  import opened ApiServer
  import opened Conditions
  import opened Deployment
  import opened Compilation
  import opened Controller
  import opened Runs
  import opened Safety

  /** Before the first project: arbitrary objects, none of them with an owner label. */
  ghost predicate Initial(c: Config, sys: System) {
    && c.namespacePrefix != "" && ServerOk(sys.server)
    && sys.server.projects == map[] && sys.active == map[] && sys.audit == map[]
    && forall k | k in sys.server.objects :: OwnerOf(sys.server.objects[k]).None?
  }

  ghost predicate Reachable(c: Config, sys: System) {
    exists start, steps :: Initial(c, start) && Run(c, start, steps) == sys
  }

  lemma ReachableInv(c: Config, sys: System)
    requires Reachable(c, sys)
    ensures Inv(c, sys)
  {
    var start, steps :| Initial(c, start) && Run(c, start, steps) == sys;
    RunKeeps(c, start, steps);
  }

  // ---- Ownership ----------------------------------------------------------------------------

  /** n is the one existing project with UID u, holds the finalizer, and is the only name that can
      generate k. */
  ghost predicate SoleOwner(c: Config, s: Server, n: string, u: string, k: Key) {
    && n in s.projects && s.projects[n].uid == u && ProjectFinalizer in s.projects[n].finalizers
    && Belongs(c, n, k)
    && (forall m | m in s.projects && s.projects[m].uid == u :: m == n)
    && (forall m | Belongs(c, m, k) :: m == n)
  }

  /** No orphans: an object owned by a UID exists only while the project of that UID exists and
      carries the operator's finalizer; it belongs to that project alone. */
  lemma NoOrphans(c: Config, sys: System, k: Address)
    requires Reachable(c, sys) && k in sys.server.objects && OwnerOf(sys.server.objects[k]).Some?
    ensures exists n :: SoleOwner(c, sys.server, n, OwnerOf(sys.server.objects[k]).value, k)
  {
    ReachableInv(c, sys);
    var s, u := sys.server, OwnerOf(sys.server.objects[k]).value;
    var n := s.issued[u];
    forall m | Belongs(c, m, k) ensures m == n {
      KeysDisjoint(c, n, m, k);
    }
    assert SoleOwner(c, s, n, u, k);
  }

  /** A project never meets leftovers of an earlier project of the same name: whatever is owned under
      one of its keys is owned by its own UID. */
  lemma NoLeftovers(c: Config, sys: System, n: string, k: Address)
    requires Reachable(c, sys) && n in sys.server.projects && Belongs(c, n, k)
    requires k in sys.server.objects && OwnerOf(sys.server.objects[k]).Some?
    ensures OwnerOf(sys.server.objects[k]) == Some(sys.server.projects[n].uid)
  {
    NoOrphans(c, sys, k);
  }

  // ---- Status -------------------------------------------------------------------------------

  /** A persisted status that is Ready for the current generation is backed by the audit: by a listing
      whose keys and digests are exactly those built from the current spec and whose objects were all
      owned and ready. History.dfy says when and where that listing was made. */
  lemma ReadyIsAudited(c: Config, sys: System, n: string)
    requires Reachable(c, sys) && n in sys.server.projects
    requires var st := sys.server.projects[n].status;
             st.state == Ready && st.observedGeneration == sys.server.projects[n].generation
    ensures var p := sys.server.projects[n];
            p.uid in sys.audit && Evidence(c, n, p.uid, p.spec, sys.audit[p.uid]) && ProjectFinalizer in p.finalizers
  {
    ReachableInv(c, sys);
    assert Truthful(c, sys.server.projects[n], sys.audit);
  }

  /** Every persisted status is coherent and never ahead of its project's generation. */
  lemma StatusIsCoherent(c: Config, sys: System, n: string)
    requires Reachable(c, sys) && n in sys.server.projects
    ensures var p := sys.server.projects[n]; Coherent(p.status) && p.status.observedGeneration <= p.generation
  {
    ReachableInv(c, sys);
    assert Truthful(c, sys.server.projects[n], sys.audit);
  }

  // ---- What the deployer sends --------------------------------------------------------------

  /** o is the object built under key k for the project as read; nothing is, once it is being deleted. */
  predicate BuiltFor(c: Config, p: Project, k: Key, o: Object) {
    !p.deleting && o in Build(c, p.name, p.spec) && Key(o.kind, o.namespace, o.name) == k
  }

  /** x is o with the operator's owner label and digest on top of its own labels and annotations. */
  predicate CarriesBuilt(c: Config, p: Project, o: Object, x: Stored) {
    && x.key == Key(o.kind, o.namespace, o.name) && x.body == o.body
    && x.labels == o.labels["cs.sap.com/owner" := p.uid]
    && x.annotations == o.annotations["cs.sap.com/digest" := DigestOf(c, o)]
  }

  /** The digest of an object with its kind recorded. */
  function DigestOf(c: Config, o: Object): string {
    c.lib.digest(o.(typeMeta := Some(o.kind)))
  }

  predicate ShowsDigest(was: Stored, digest: string) {
    digest == if "cs.sap.com/digest" in was.annotations then was.annotations["cs.sap.com/digest"] else ""
  }

  /** The call an item asks for: a missing object is created as built; a listed one that is not built is
      deleted under its listed version; one that shows another digest is updated to what is built, or
      deleted if it is a role binding; for any other there is no call. */
  ghost predicate ItemSends(c: Config, p: Project, item: Item, call: Option<Call>) {
    match call
    case Some(Create(x)) =>
      item.was.None? && x.resourceVersion == 0 && exists o :: BuiltFor(c, p, x.key, o) && CarriesBuilt(c, p, o, x)
    case Some(Update(x)) =>
      && item.was.Some? && x.key == item.was.value.key && x.resourceVersion == item.was.value.resourceVersion
      && x.key.kind != RoleBinding
      && exists o ::
           BuiltFor(c, p, x.key, o) && CarriesBuilt(c, p, o, x) && !ShowsDigest(item.was.value, DigestOf(c, o))
    case Some(Delete(k, version)) =>
      && item.was.Some? && k == item.was.value.key && version == item.was.value.resourceVersion
      && ((forall o :: !BuiltFor(c, p, k, o))
          || (k.kind == RoleBinding
              && exists o :: BuiltFor(c, p, k, o) && !ShowsDigest(item.was.value, DigestOf(c, o))))
    case Some(_) => false
    case None =>
      item.was.Some? && exists o :: BuiltFor(c, p, item.was.value.key, o) && ShowsDigest(item.was.value, DigestOf(c, o))
  }

  /** The call a deployer round has pending: it lists what carries the project's owner label, kind after
      kind, and then takes the items of its worklist. */
  ghost predicate Sends(c: Config, p: Project, d: Deploy, pick: string, call: Option<Call>) {
    match d
    case Listing(next, _) =>
      next < 3 && call == Some(List([Namespace, RoleBinding, ClusterRoleBinding][next], "cs.sap.com/owner", p.uid))
    case Working(w, todo, _) => if pick in todo then pick in w && ItemSends(c, p, w[pick], call) else call == None
    case Returned(_, _, _) => false
  }

  lemma WantIsBuilt(c: Config, p: Project, x: string) returns (o: Object)
    requires x in AllDesired(JobFor(c, p))
    ensures var want := AllDesired(JobFor(c, p))[x];
            BuiltFor(c, p, want.key, o) && CarriesBuilt(c, p, o, want) && want.resourceVersion == 0
            && AnnotationKeyDigest in want.annotations && want.annotations[AnnotationKeyDigest] == DigestOf(c, o)
  {
    hide WorkKey, Build;
    var job := JobFor(c, p);
    var i := DesiredFrom(job, |job.objects|, x);
    o := job.objects[i];
  }

  lemma NotBuilt(c: Config, p: Project, k: Key)
    requires WorkKey(k) !in AllDesired(JobFor(c, p))
    ensures forall o :: !BuiltFor(c, p, k, o)
  {
    hide WorkKey, Build;
    var job := JobFor(c, p);
    forall o ensures !BuiltFor(c, p, k, o) {
      if BuiltFor(c, p, k, o) {
        var i :| 0 <= i < |job.objects| && job.objects[i] == o;
        DesiredHas(job, |job.objects|, i);
      }
    }
  }

  lemma ItemSendsBuilt(c: Config, p: Project, x: string, item: Item)
    requires item.was.Some? || item.want.Some?
    requires item.want == if x in AllDesired(JobFor(c, p)) then Some(AllDesired(JobFor(c, p))[x]) else None
    requires item.was.Some? ==> x == WorkKey(item.was.value.key)
    requires item.was.Some? && item.want.Some? ==> item.was.value.key == item.want.value.key
    ensures ItemSends(c, p, item, ItemCall(JobFor(c, p), item))
  {
    hide WorkKey, Build, BuiltFor, AllDesired;
    if item.want.Some? {
      var o := WantIsBuilt(c, p, x);
      hide CarriesBuilt;
    } else {
      NotBuilt(c, p, item.was.value.key);
    }
  }

  /** Whatever a deployer round sends, in every run and for every processing order, is what the spec it read
      asks for, against what it has listed. */
  lemma SendsWhatWasBuilt(c: Config, sys: System, n: string, pick: string)
    requires Reachable(c, sys) && Running(sys, n) && sys.active[n].phase.Deploying?
    ensures var l := sys.active[n]; Sends(c, l.phase.project, l.phase.d, pick, PendingCall(c, n, l, pick))
  {
    ReachableInv(c, sys);
    SendsBuilt(c, sys.server, n, sys.active[n].phase.project, sys.active[n].phase.d, pick);
  }

  lemma SendsBuilt(c: Config, s: Server, n: string, p: Project, d: Deploy, pick: string)
    requires c.namespacePrefix != "" && p.name == n && !d.Returned? && DeployOk(c, s, n, p, d)
    ensures Sends(c, p, d, pick, DeployCall(JobFor(c, p), d, pick))
  {
    hide WorkKey, Build, ItemSends;
    if d.Working? && pick in d.todo {
      DesiredBelongs(c, p);
      var item := d.worklist[pick];
      if item.was.Some? && item.want.Some? {
        BelongsAddressable(c, n, item.was.value.key);
        BelongsAddressable(c, n, item.want.value.key);
        WorkKeyInjective(item.was.value.key, item.want.value.key);
      }
      ItemSendsBuilt(c, p, pick, item);
    }
  }

  // ---- What a single step may do ------------------------------------------------------------

  ghost predicate Changed(s: Server, t: Server, k: Address) {
    k in s.objects && (k !in t.objects || t.objects[k] != s.objects[k])
  }

  /** The reconciliation of n is about to process a listed object that is, at this moment, exactly the
      stored one, and owned by the UID of n's project. */
  ghost predicate HitsListed(s: Server, n: string, phase: Phase, pick: string, k: Address)
    requires k in s.objects
  {
    && phase.Deploying? && phase.d.Working? && pick in phase.d.worklist
    && phase.d.worklist[pick].was == Some(s.objects[k])
    && OwnerOf(s.objects[k]) == Some(phase.project.uid)
    && n in s.projects && s.projects[n].uid == phase.project.uid
  }

  ghost predicate MayCreate(c: Config, n: string, phase: Phase, t: Server, k: Address)
    requires k in t.objects
  {
    && phase.Deploying? && !phase.project.deleting && Belongs(c, n, k)
    && OwnerOf(t.objects[k]) == Some(phase.project.uid)
  }

  /** Isolation: whatever a step of a reconciliation changes or deletes is, at that moment, exactly
      the version it had listed as its own; whatever it creates is its own and was absent. */
  lemma Isolation(c: Config, sys: System, n: string, clock: int, pick: string, fate: Fate, k: Address)
    requires Reachable(c, sys) && Running(sys, n)
    ensures var s, t := sys.server, Next(c, sys, Advance(n, clock, pick, fate)).server;
            && (Changed(s, t, k) ==> HitsListed(s, n, sys.active[n].phase, pick, k))
            && (k !in s.objects && k in t.objects ==> MayCreate(c, n, sys.active[n].phase, t, k))
  {
    hide WorkKey, Build;
    ReachableInv(c, sys);
    ExchangeIsolated(c, sys.server, n, sys.active[n], pick, fate, k);
  }

  lemma ExchangeIsolated(c: Config, s: Server, n: string, l: Local, pick: string, fate: Fate, k: Address)
    requires c.namespacePrefix != "" && PhaseOk(c, s, n, l.phase)
    ensures var t := Exchange(c, s, n, l, pick, fate).0;
            && (Changed(s, t, k) ==> HitsListed(s, n, l.phase, pick, k))
            && (k !in s.objects && k in t.objects ==> MayCreate(c, n, l.phase, t, k))
  {
    hide WorkKey, Build;
    if Exchange(c, s, n, l, pick, fate).0.objects != s.objects {
      ChangesByDeployer(c, s, n, l, pick, fate);
      WorkIsolated(c, s, n, l.phase.project, l.phase.d, pick, k);
    }
  }

  lemma WorkIsolated(c: Config, s: Server, n: string, p: Project, d: Deploy, pick: string, k: Address)
    requires c.namespacePrefix != "" && p.name == n && d.Working? && DeployOk(c, s, n, p, d) && Held(s, n, p)
    requires DeployCall(JobFor(c, p), d, pick).Some?
    ensures var t := Apply(s, DeployCall(JobFor(c, p), d, pick).value).0;
            && (Changed(s, t, k) ==> HitsListed(s, n, Deploying(p, d), pick, k))
            && (k !in s.objects && k in t.objects ==> MayCreate(c, n, Deploying(p, d), t, k))
  {
    hide WorkKey, Build;
    WorkCall(c, s, n, p, d, pick);
    TouchesOneKey(s, DeployCall(JobFor(c, p), d, pick).value, k);
  }

  lemma ChangesByDeployer(c: Config, s: Server, n: string, l: Local, pick: string, fate: Fate)
    requires Exchange(c, s, n, l, pick, fate).0.objects != s.objects
    ensures l.phase.Deploying? && l.phase.d.Working? && PendingCall(c, n, l, pick).Some?
    ensures Exchange(c, s, n, l, pick, fate).0 == Apply(s, PendingCall(c, n, l, pick).value).0
  {
  }

  /** Which object a writing call can touch, and in which version. */
  lemma TouchesOneKey(s: Server, call: Call, k: Address)
    ensures var t := Apply(s, call).0;
            && (Changed(s, t, k) ==>
                  match call
                  case Delete(key, revision) => key == k && s.objects[k].resourceVersion == revision
                  case Update(o) => o.key == k && s.objects[k].resourceVersion == o.resourceVersion
                  case _ => false)
            && (k !in s.objects && k in t.objects ==>
                  call.Create? && call.obj.key == k && t.objects[k].labels == call.obj.labels)
  {
  }

  /** The operator never deletes a namespace while the project as read is not being deleted. */
  lemma NamespaceIsSafe(c: Config, sys: System, n: string, clock: int, pick: string, fate: Fate, k: Address)
    requires Reachable(c, sys) && Running(sys, n) && k.kind.Namespace? && k in sys.server.objects
    requires sys.active[n].phase.Deploying? ==> !sys.active[n].phase.project.deleting
    ensures match PendingCall(c, n, sys.active[n], pick)
            case Some(Delete(key, _)) => !key.kind.Namespace?
            case _ => true
    ensures var t := Next(c, sys, Advance(n, clock, pick, fate)).server;
            k in t.objects && t.objects[k].terminating == sys.server.objects[k].terminating
  {
    hide WorkKey, Build, Apply;
    ReachableInv(c, sys);
    var s, l := sys.server, sys.active[n];
    var t := Exchange(c, s, n, l, pick, fate).0;
    if l.phase.Deploying? && l.phase.d.Working? {
      WorkCall(c, s, n, l.phase.project, l.phase.d, pick);
    }
    if t.objects != s.objects {
      ChangesByDeployer(c, s, n, l, pick, fate);
      KeepsNamespace(s, PendingCall(c, n, l, pick).value, k);
    }
  }

  lemma PutElsewhere(s: Server, j: Address, o: Stored, k: Address)
    requires j != k && k in s.objects
    ensures k in PutObject(s, j, o).objects && PutObject(s, j, o).objects[k] == s.objects[k]
  {
    hide WorkKey, Build;
  }

  lemma PutReplaced(s: Server, k: Address, o: Stored)
    requires ServerOk(s) && k.kind.Namespace? && k in s.objects
    ensures var t := PutObject(s, k, Replaced(s.objects[k], o));
            k in t.objects && t.objects[k].terminating == s.objects[k].terminating
  {
    hide WorkKey, Build;
    assert NamespaceFinalizer in Replaced(s.objects[k], o).finalizers;
  }

  lemma KeepsNamespace(s: Server, call: Call, k: Address)
    requires ServerOk(s) && k.kind.Namespace? && k in s.objects
    requires call.Delete? ==> call.key != k
    ensures k in Apply(s, call).0.objects && Apply(s, call).0.objects[k].terminating == s.objects[k].terminating
  {
    hide WorkKey, Build;
    var t := Apply(s, call).0;
    if t.objects != s.objects {
      match call
      case Create(o) => PutElsewhere(s, o.key, Born(o), k);
      case Delete(j, _) => PutElsewhere(s, j, s.objects[j].(terminating := true), k);
      case Update(o) =>
        if o.key == k {
          PutReplaced(s, k, o);
        } else {
          PutElsewhere(s, o.key, Replaced(s.objects[o.key], o), k);
        }
    }
  }

  // ---- Deletion is one-way ------------------------------------------------------------------

  /** The project of UID u, issued to n, is gone or marked for deletion. */
  ghost predicate Marked(s: Server, n: string, u: string) {
    && u in s.issued && s.issued[u] == n
    && (n in s.projects && s.projects[n].uid == u ==> s.projects[n].deleting)
  }

  ghost predicate DeploysUnmarked(sys: System, n: string, u: string) {
    && n in sys.active && sys.active[n].phase.Deploying?
    && sys.active[n].phase.project.uid == u && !sys.active[n].phase.project.deleting
  }

  /** The project of UID u is gone or marked, and no reconciliation that read it before is still
      deploying it. */
  ghost predicate Doomed(sys: System, n: string, u: string) {
    Marked(sys.server, n, u) && !DeploysUnmarked(sys, n, u)
  }

  /** A reconciliation that reads a deletion mark finds its project doomed. */
  lemma ReadingDooms(c: Config, sys: System, n: string, clock: int, pick: string, fate: Fate)
    requires Reachable(c, sys) && Running(sys, n) && sys.active[n].phase.Fetching?
    requires n in sys.server.projects && sys.server.projects[n].deleting
    ensures Doomed(Next(c, sys, Advance(n, clock, pick, fate)), n, sys.server.projects[n].uid)
  {
    ReachableInv(c, sys);
  }

  lemma ActMarked(s: Server, a: Action, n: string, u: string)
    requires ServerOk(s) && Marked(s, n, u)
    ensures Marked(Act(s, a), n, u)
  {
  }

  lemma PutMarked(s: Server, p: Project, n: string, u: string)
    requires Marked(s, n, u) && p.name in s.projects
    requires s.projects[p.name].uid == p.uid && s.projects[p.name].deleting == p.deleting
    ensures Marked(PutProject(s, p), n, u)
  {
    hide WorkKey, Build;
  }

  lemma ApplyMarked(s: Server, call: Call, n: string, u: string)
    requires ServerOk(s) && Marked(s, n, u)
    ensures Marked(Apply(s, call).0, n, u)
  {
    hide WorkKey, Build;
    match call
    case UpdateProject(p) =>
      if p.name in s.projects && UpToDate(s, p) {
        PutMarked(s, Edited(s.projects[p.name], p.annotations, p.finalizers, p.spec), n, u);
      }
    case UpdateStatus(p) =>
      if p.name in s.projects && UpToDate(s, p) {
        PutMarked(s, s.projects[p.name].(status := p.status), n, u);
      }
    case _ => assert Apply(s, call).0.projects == s.projects && Apply(s, call).0.issued == s.issued;
  }

  lemma ExchangeMarked(c: Config, s: Server, m: string, l: Local, pick: string, fate: Fate, n: string, u: string)
    requires ServerOk(s) && Marked(s, n, u)
    ensures Marked(Exchange(c, s, m, l, pick, fate).0, n, u)
  {
    if PendingCall(c, m, l, pick).Some? {
      ApplyMarked(s, PendingCall(c, m, l, pick).value, n, u);
    }
  }

  lemma ExchangeGainsNone(c: Config, s: Server, m: string, l: Local, pick: string, fate: Fate, u: string)
    requires c.namespacePrefix != "" && ServerOk(s) && PhaseOk(c, s, m, l.phase)
    requires l.phase.Deploying? && l.phase.project.uid == u ==> l.phase.project.deleting
    ensures NoneGained(s, Exchange(c, s, m, l, pick, fate).0, u)
  {
    if PendingCall(c, m, l, pick).Some? {
      if l.phase.Deploying? && l.phase.d.Working? {
        WorkCall(c, s, m, l.phase.project, l.phase.d, pick);
      }
      ApplyGainsNone(s, PendingCall(c, m, l, pick).value, u);
    }
  }

  lemma ResumeMarked(c: Config, s: Server, n: string, u: string, l: Local, clock: int, pick: string, fate: Fate)
    requires Marked(s, n, u)
    requires l.phase.Deploying? && l.phase.project.uid == u ==> l.phase.project.deleting
    ensures var phase := Resume(c, l, clock, pick, Exchange(c, s, n, l, pick, fate).1).phase;
            phase.Deploying? && phase.project.uid == u ==> phase.project.deleting
  {
  }

  lemma DoomedStep(c: Config, sys: System, step: Step, n: string, u: string)
    requires Inv(c, sys) && Doomed(sys, n, u)
    ensures Doomed(Next(c, sys, step), n, u) && NoneGained(sys.server, Next(c, sys, step).server, u)
  {
    match step
    case Environment(a) =>
      ActMarked(sys.server, a, n, u);
      ActGainsNone(sys.server, a, u);
    case Begin(_, _) =>
    case Advance(m, clock, pick, fate) =>
      if Running(sys, m) {
        var l := sys.active[m];
        ExchangeMarked(c, sys.server, m, l, pick, fate, n, u);
        if l.phase.Deploying? && l.phase.project.uid == u {
          assert m == n;
        }
        ExchangeGainsNone(c, sys.server, m, l, pick, fate, u);
        if m == n {
          ResumeMarked(c, sys.server, n, u, l, clock, pick, fate);
        }
      }
  }

  /** From then on the set of objects owned by the UID only shrinks, in every run. */
  lemma {:induction false} DeletionIsOneWay(c: Config, sys: System, steps: seq<Step>, n: string, u: string)
    requires Inv(c, sys) && Doomed(sys, n, u)
    ensures Doomed(Run(c, sys, steps), n, u) && NoneGained(sys.server, Run(c, sys, steps).server, u)
    decreases |steps|
  {
    if steps != [] {
      NextKeeps(c, sys, steps[0]);
      DoomedStep(c, sys, steps[0], n, u);
      DeletionIsOneWay(c, Next(c, sys, steps[0]), steps[1..], n, u);
    }
  }

  /** Once doomed, the operator's own steps leave each owned object as it is, mark it for deletion, or
      remove it; and they do so only in a reconciliation that saw no foreign finalizer. */
  lemma DoomedOnlyDeleted(c: Config, sys: System, n: string, u: string, m: string, clock: int, pick: string,
                          fate: Fate, k: Address)
    requires Reachable(c, sys) && Doomed(sys, n, u) && Running(sys, m)
    requires k in sys.server.objects && OwnerOf(sys.server.objects[k]) == Some(u)
    ensures var s, t := sys.server, Next(c, sys, Advance(m, clock, pick, fate)).server;
            Changed(s, t, k) ==>
              && m == n && sys.active[n].phase.Deploying?
              && sys.active[n].phase.project.finalizers == {ProjectFinalizer}
              && (k in t.objects ==> t.objects[k] == s.objects[k].(terminating := true,
                                                                   resourceVersion := t.objects[k].resourceVersion))
  {
    hide WorkKey, Belongs, JobFor;
    Isolation(c, sys, m, clock, pick, fate, k);
    ReachableInv(c, sys);
    var s, l := sys.server, sys.active[m];
    var t := Exchange(c, s, m, l, pick, fate).0;
    if Changed(s, t, k) {
      ChangesByDeployer(c, s, m, l, pick, fate);
      DoomedWork(c, s, m, l, pick, k);
    }
  }

  lemma DoomedWork(c: Config, s: Server, m: string, l: Local, pick: string, k: Address)
    requires c.namespacePrefix != "" && PhaseOk(c, s, m, l.phase) && k in s.objects
    requires l.phase.Deploying? && l.phase.d.Working? && l.phase.project.deleting && PendingCall(c, m, l, pick).Some?
    ensures l.phase.project.uid in s.issued && s.issued[l.phase.project.uid] == m
    ensures l.phase.project.finalizers == {ProjectFinalizer}
    ensures var t := Apply(s, PendingCall(c, m, l, pick).value).0;
            k in t.objects && t.objects[k] != s.objects[k] ==>
              t.objects[k] == s.objects[k].(key := k, terminating := true,
                                            resourceVersion := t.objects[k].resourceVersion)
  {
    DeletesOnly(c, s, m, l.phase.project, l.phase.d, pick);
    DeleteMarks(s, PendingCall(c, m, l, pick).value, k);
  }

  lemma DeletesOnly(c: Config, s: Server, n: string, p: Project, d: Deploy, pick: string)
    requires c.namespacePrefix != "" && p.name == n && d.Working? && DeployOk(c, s, n, p, d) && p.deleting
    ensures var call := DeployCall(JobFor(c, p), d, pick); call.Some? ==> call.value.Delete?
  {
    WorkCall(c, s, n, p, d, pick);
  }

  lemma DeleteMarks(s: Server, call: Call, k: Address)
    requires call.Delete? && k in s.objects
    ensures var t := Apply(s, call).0;
            k in t.objects ==>
              (|| t.objects[k] == s.objects[k]
               || t.objects[k] == s.objects[k].(key := k, terminating := true,
                                                resourceVersion := t.objects[k].resourceVersion))
  {
  }

  // ---- Wake-ups -----------------------------------------------------------------------------

  /** No lost wake-ups: a reconciliation that ends without error and without asking to be run again
      leaves no project of its name in the store. */
  lemma NoLostWakeups(c: Config, sys: System, n: string, clock: int, pick: string, fate: Fate)
    requires Reachable(c, sys) && Running(sys, n)
    ensures var next := Next(c, sys, Advance(n, clock, pick, fate));
            next.active[n].phase.Done? && Quiet(next.active[n].phase.result, next.active[n].phase.err)
            ==> n !in next.server.projects
  {
    ReachableInv(c, sys);
    QuietMeansGone(c, sys, n, clock, pick, fate);
  }

  lemma QuietMeansGone(c: Config, sys: System, n: string, clock: int, pick: string, fate: Fate)
    requires Inv(c, sys) && Running(sys, n)
    ensures var next := Next(c, sys, Advance(n, clock, pick, fate));
            next.active[n].phase.Done? && Quiet(next.active[n].phase.result, next.active[n].phase.err)
            ==> n !in next.server.projects
  {
    var s, l := sys.server, sys.active[n];
    var (t, reply) := Exchange(c, s, n, l, pick, fate);
    match l.phase
    case Deploying(p, d) => DeployNeverQuiet(c, l.now, clock, p, DeployStep(JobFor(c, p), d, pick, reply));
    case Fetching =>
      if reply.GotProject? {
        FetchNeverQuiet(c, s, sys.audit, n, l.now, clock);
      }
    case RemovingFinalizer(p) => RemovalEmpties(s, n, p, fate);
    case _ =>
  }

  /** A removal of the last finalizer that is confirmed has removed the project. */
  lemma RemovalEmpties(s: Server, n: string, p: Project, fate: Fate)
    requires ServerOk(s) && p.name == n && p.deleting && p.finalizers == {ProjectFinalizer} && AsRead(s, n, p)
    ensures var (t, reply) := Serve(s, UpdateProject(WithoutFinalizer(p)), fate);
            reply.GotProject? ==> n !in t.projects
  {
    hide WorkKey, Build;
  }

  lemma DeployNeverQuiet(c: Config, now: int, clock: int, p: Project, d: Deploy)
    requires ProjectFinalizer in p.finalizers
    ensures !Enter(c, now, clock, p, d).Done?
  {
  }

  lemma FetchNeverQuiet(c: Config, s: Server, audit: map<string, Worklist>, n: string, now: int, clock: int)
    requires ServerInv(c, s, audit) && n in s.projects
    ensures !AfterFetch(c, now, clock, s.projects[n]).Done?
  {
    var p := s.projects[n];
    if p.deleting && p.finalizers - {ProjectFinalizer} == {} {
      assert p.finalizers == {ProjectFinalizer};
    }
  }
}
