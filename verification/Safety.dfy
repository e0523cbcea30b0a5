/** One step of a reconciliation keeps the invariant; hence every run does. */
module Safety {
  import opened Kubernetes
  import opened Names
  import opened ApiServer
  import opened Conditions
  import opened Deployment
  import opened Compilation
  import opened Controller
  import opened Runs

  // ---- Exits --------------------------------------------------------------------------------

  ghost predicate MayReport(c: Config, s: Server, n: string, p: Project, err: Error, basis: Option<Worklist>) {
    && Known(s, n, p) && Coherent(p.status)
    && (SameVersion(s, n, p) ==> s.projects[n].spec == p.spec && s.projects[n].generation == p.generation)
    && (p.status.state == Ready && err == NoError ==>
          && (SameVersion(s, n, p) ==> ProjectFinalizer in s.projects[n].finalizers)
          && basis.Some? && Evidence(c, n, p.uid, p.spec, basis.value))
  }

  lemma ObservedCoherent(st: Status, generation: int, now: int, err: Error, clock: int)
    requires Coherent(st)
    ensures Coherent(Observed(st, generation, now, err, clock))
    ensures Observed(st, generation, now, err, clock).observedGeneration == generation
    ensures Observed(st, generation, now, err, clock).state == if err.Error? then ErrorState else st.state
  {
    var st1 := st.(observedGeneration := generation, lastObservedAt := Some(now));
    if err.Error? {
      WithReadyCoherent(st1, ErrorState, err.text, clock);
    }
  }

  lemma LeaveOk(c: Config, s: Server, n: string, now: int, clock: int, p: Project, result: Result, err: Error,
                basis: Option<Worklist>)
    requires MayReport(c, s, n, p, err, basis)
    requires !Quiet(result, err)
    ensures PhaseOk(c, s, n, Leave(c, now, clock, p, result, err, basis))
  {
    ObservedCoherent(p.status, p.generation, now, Checked(c, p, err), clock);
  }

  lemma NotedOk(p: Project, state: State, message: string, clock: int)
    requires Coherent(p.status) && state != NoState
    ensures Coherent(Noted(p, StatusFor(state), state, message, clock).status)
  {
    WithReadyCoherent(p.status, state, message, clock);
  }

  /** A round that ends with ok rests on a listing equal to what the spec asks for. */
  lemma RoundEvidence(c: Config, s: Server, n: string, p: Project, d: Deploy)
    requires p.name == n && !p.deleting
    requires d.Returned? && d.err == NoError && d.ok && DeployOk(c, s, n, p, d)
    ensures Evidence(c, n, p.uid, p.spec, d.worklist)
  {
    var job := JobFor(c, p);
    assert job == SpecJob(c, n, p.uid, p.spec);
    assert forall x | x in d.worklist :: Matches(job, d.worklist[x]);
  }

  /** Once nothing is desired, ok means that nothing is owned any more. */
  lemma EmptyRound(c: Config, s: Server, n: string, p: Project, d: Deploy)
    requires p.deleting && d.Returned? && d.err == NoError && d.ok && DeployOk(c, s, n, p, d)
    ensures Unowned(s, p.uid)
  {
    var job := JobFor(c, p);
    assert AllDesired(job) == map[];
    assert forall x | x in d.worklist :: Matches(job, d.worklist[x]);
    assert d.worklist.Keys <= AllDesired(job).Keys;
  }

  ghost predicate MidDeploy(s: Server, n: string, p: Project) {
    && ReadOk(s, n, p) && Held(s, n, p) && ProjectFinalizer in p.finalizers
    && (p.deleting ==> p.finalizers == {ProjectFinalizer})
  }

  lemma AfterSyncOk(c: Config, s: Server, n: string, now: int, clock: int, p: Project, d: Deploy)
    requires MidDeploy(s, n, p) && d.Returned? && DeployOk(c, s, n, p, d) && !p.deleting
    ensures PhaseOk(c, s, n, AfterDeploy(c, now, clock, p, d.ok, d.err, d.worklist))
  {
    hide WorkKey, Build;
    if d.err != NoError {
      LeaveOk(c, s, n, now, clock, p, Nothing, Wrap(d.err, "error reconciling dependent resources"), None);
    } else if d.ok {
      RoundEvidence(c, s, n, p, d);
      NotedOk(p, Ready, "Dependent resources successfully reconciled", clock);
      LeaveOk(c, s, n, now, clock, Noted(p, True, Ready, "Dependent resources successfully reconciled", clock),
              Result(false, 600), NoError, Some(d.worklist));
    } else {
      var message := "Reconcilation of dependent resources triggered";
      NotedOk(p, Processing, message, clock);
      LeaveOk(c, s, n, now, clock, Noted(p, Unknown, Processing, message, clock), Result(false, 1), NoError, None);
    }
  }

  lemma AfterDeletionOk(c: Config, s: Server, n: string, now: int, clock: int, p: Project, d: Deploy)
    requires MidDeploy(s, n, p) && d.Returned? && DeployOk(c, s, n, p, d) && p.deleting
    ensures PhaseOk(c, s, n, AfterDeploy(c, now, clock, p, d.ok, d.err, d.worklist))
  {
    hide WorkKey, Build;
    if d.err != NoError {
      LeaveOk(c, s, n, now, clock, p, Nothing, Wrap(d.err, "error deleting dependent resources"), None);
    } else if d.ok {
      EmptyRound(c, s, n, p, d);
    } else {
      var message := "Deletion of dependent resources triggered";
      NotedOk(p, Deleting, message, clock);
      LeaveOk(c, s, n, now, clock, Noted(p, Unknown, Deleting, message, clock), Result(false, 1), NoError, None);
    }
  }

  lemma AfterDeployOk(c: Config, s: Server, n: string, now: int, clock: int, p: Project, d: Deploy)
    requires MidDeploy(s, n, p) && d.Returned? && DeployOk(c, s, n, p, d)
    ensures PhaseOk(c, s, n, AfterDeploy(c, now, clock, p, d.ok, d.err, d.worklist))
  {
    hide WorkKey, Build;
    if p.deleting {
      AfterDeletionOk(c, s, n, now, clock, p, d);
    } else {
      AfterSyncOk(c, s, n, now, clock, p, d);
    }
  }

  lemma EnterOk(c: Config, s: Server, n: string, now: int, clock: int, p: Project, d: Deploy)
    requires MidDeploy(s, n, p) && DeployOk(c, s, n, p, d)
    ensures PhaseOk(c, s, n, Enter(c, now, clock, p, d))
  {
    if d.Returned? {
      AfterDeployOk(c, s, n, now, clock, p, d);
    }
  }

  // ---- After the fetch ----------------------------------------------------------------------

  lemma FetchOk(c: Config, s: Server, audit: map<string, Worklist>, n: string, now: int, clock: int)
    requires ServerInv(c, s, audit) && n in s.projects
    ensures PhaseOk(c, s, n, AfterFetch(c, now, clock, s.projects[n]))
  {
    var read := s.projects[n];
    var p := read.(status := read.status.(namespace := NamespaceName(c, read.name)));
    NotedOk(read, Processing, "First seen", clock);
    NotedOk(p, DeletionBlocked, "Deletion blocked due to existing foreign finalizers", clock);
    if read.status.observedGeneration <= 0 {
      LeaveOk(c, s, n, now, clock, Noted(read, Unknown, Processing, "First seen", clock), Result(true, 0), NoError,
              None);
    } else if p.deleting && p.finalizers - {ProjectFinalizer} != {} {
      LeaveOk(c, s, n, now, clock, Noted(p, Unknown, DeletionBlocked,
                                         "Deletion blocked due to existing foreign finalizers", clock),
              Result(false, 10), NoError, None);
    } else if p.deleting || ProjectFinalizer in p.finalizers {
      assert p.deleting ==> p.finalizers == {ProjectFinalizer};
      assert DeployOk(c, s, n, p, Start(JobFor(c, p)));
      EnterOk(c, s, n, now, clock, p, Start(JobFor(c, p)));
    }
  }

  // ---- Inside the deployer ------------------------------------------------------------------

  function ListReply(s: Server, kind: Kind, u: string): map<Address, Stored> {
    Apply(s, List(kind, LabelKeyOwner, u)).1.items
  }

  lemma ReplyItemOk(c: Config, s: Server, n: string, p: Project, kind: Kind, k: Address)
    requires ServerOk(s) && Homed(c, s) && Known(s, n, p)
    requires k in ListReply(s, kind, p.uid)
    ensures WasOk(c, s, n, p.uid, WorkKey(k), ListReply(s, kind, p.uid)[k])
  {
    assert ListReply(s, kind, p.uid)[k] == s.objects[k];
    assert OwnerOf(s.objects[k]) == Some(p.uid);
  }

  lemma MergeEntry(w: Worklist, items: map<Address, Stored>, x: string) returns (k: Option<Address>)
    requires x in Merge(w, items)
    ensures k.None? ==> x in w && Merge(w, items)[x] == w[x]
    ensures k.Some? ==>
              k.value in items && x == WorkKey(k.value) && Merge(w, items)[x] == Item(Some(items[k.value]), None)
  {
    WorkKeysDistinct(items.Keys);
    if j :| j in items && WorkKey(j) == x {
      k := Some(j);
    } else {
      k := None;
    }
  }

  lemma MergedListed(c: Config, s: Server, n: string, p: Project, w: Worklist, kind: Kind)
    requires ServerOk(s) && Homed(c, s) && Known(s, n, p) && ListedOk(c, s, n, p.uid, w)
    ensures ListedOk(c, s, n, p.uid, Merge(w, ListReply(s, kind, p.uid)))
  {
    var items := ListReply(s, kind, p.uid);
    forall x | x in Merge(w, items) && Merge(w, items)[x].was.Some?
      ensures WasOk(c, s, n, p.uid, x, Merge(w, items)[x].was.value)
    {
      var k := MergeEntry(w, items, x);
      if k.Some? {
        ReplyItemOk(c, s, n, p, kind, k.value);
      }
    }
  }

  lemma MergedCovered(s: Server, u: string, w: Worklist, next: nat)
    requires next < |Managed| && Covered(s, u, Listing(next, w))
    ensures Covered(s, u, Listing(next + 1, Merge(w, ListReply(s, Managed[next], u))))
  {
    hide WorkKey, Build;
    var items := ListReply(s, Managed[next], u);
    forall k | k in s.objects && OwnerOf(s.objects[k]) == Some(u) && k.kind in Managed[..next + 1]
      ensures WorkKey(k) in Merge(w, items) && Merge(w, items)[WorkKey(k)].was.Some?
    {
      if k.kind == Managed[next] {
        assert k in items;
      } else {
        assert ListedKind(Listing(next, w), k.kind);
      }
    }
  }

  lemma JoinedOk(c: Config, s: Server, n: string, p: Project, w: Worklist, v: Worklist, desired: map<string, Stored>)
    requires ListedOk(c, s, n, p.uid, w) && OuterJoin(v, w, desired)
    ensures ListedOk(c, s, n, p.uid, v) && WantsAre(v, desired)
  {
  }

  /** After three listings every kind is listed. */
  lemma AllKindsListed(w: Worklist, kind: Kind)
    ensures ListedKind(Listing(3, w), kind)
  {
    var all := Managed[..3];
    match kind
    case Namespace => assert all[0] == kind;
    case RoleBinding => assert all[1] == kind;
    case ClusterRoleBinding => assert all[2] == kind;
  }

  lemma AllCovered(s: Server, u: string, w: Worklist, d: Deploy)
    requires Covered(s, u, Listing(3, w)) && !d.Listing?
    requires forall x | x in w && w[x].was.Some? :: x in d.worklist && d.worklist[x].was.Some?
    ensures Covered(s, u, d)
  {
    forall k: Kind ensures ListedKind(Listing(3, w), k) {
      AllKindsListed(w, k);
    }
  }

  lemma AllListedOk(c: Config, s: Server, n: string, p: Project, w: Worklist)
    requires c.namespacePrefix != ""
    requires ListedOk(c, s, n, p.uid, w) && OnlyListed(w)
    requires p.deleting ==> Covered(s, p.uid, Listing(3, w))
    ensures DeployOk(c, s, n, p, AfterListing(JobFor(c, p), w))
  {
    var job := JobFor(c, p);
    DesiredBelongs(c, p);
    JoinIsOuterJoin(job, w, |job.objects|);
    AfterListingCounted(job, w);
    var v := Joined(job, w, |job.objects|);
    JoinedOk(c, s, n, p, w, v, AllDesired(job));
    if p.deleting {
      AllCovered(s, p.uid, w, AfterListing(job, w));
    }
  }

  lemma ListStepOk(c: Config, s: Server, n: string, p: Project, d: Deploy, pick: string, reply: Reply)
    requires c.namespacePrefix != "" && ServerOk(s) && Homed(c, s) && Known(s, n, p)
    requires d.Listing? && DeployOk(c, s, n, p, d)
    requires reply == Apply(s, List(Managed[d.next], LabelKeyOwner, p.uid)).1 || reply.Failed?
    ensures DeployOk(c, s, n, p, DeployStep(JobFor(c, p), d, pick, reply))
  {
    hide WorkKey, Build;
    var job := JobFor(c, p);
    StepCounted(job, d, pick, reply);
    if reply.Listed? {
      var w := Merge(d.worklist, reply.items);
      MergedListed(c, s, n, p, d.worklist, Managed[d.next]);
      MergeOnlyListed(d.worklist, reply.items);
      if p.deleting {
        MergedCovered(s, p.uid, d.worklist, d.next);
      }
      if d.next + 1 == |Managed| {
        AllListedOk(c, s, n, p, w);
      }
    }
  }

  /** What a call out of the worklist may be: a write creates or updates a desired object of a project
      that is not being deleted; a delete hits a listed object under its listed version. */
  lemma WorkCall(c: Config, s: Server, n: string, p: Project, d: Deploy, pick: string)
    requires c.namespacePrefix != "" && p.name == n && d.Working? && DeployOk(c, s, n, p, d)
    ensures match DeployCall(JobFor(c, p), d, pick)
            case None => true
            case Some(Create(o)) =>
              !p.deleting && OwnerOf(o) == Some(p.uid) && Belongs(c, n, o.key)
              && pick in d.worklist && d.worklist[pick].was.None?
            case Some(Update(o)) =>
              && !p.deleting && OwnerOf(o) == Some(p.uid) && Belongs(c, n, o.key)
              && pick in d.worklist && d.worklist[pick].was.Some?
              && WasOk(c, s, n, p.uid, pick, d.worklist[pick].was.value)
              && d.worklist[pick].was.value.key == o.key
              && d.worklist[pick].was.value.resourceVersion == o.resourceVersion
            case Some(Delete(k, revision)) =>
              && pick in d.worklist && d.worklist[pick].was.Some?
              && WasOk(c, s, n, p.uid, pick, d.worklist[pick].was.value)
              && d.worklist[pick].was.value.key == k && d.worklist[pick].was.value.resourceVersion == revision
              && (!p.deleting ==> !k.kind.Namespace?)
            case _ => false
  {
    hide WorkKey, Build;
    if pick in d.todo && DeployCall(JobFor(c, p), d, pick).Some? {
      DesiredBelongs(c, p);
      var item := d.worklist[pick];
      if item.was.Some? && item.want.Some? {
        BelongsAddressable(c, n, item.was.value.key);
        BelongsAddressable(c, n, item.want.value.key);
        WorkKeyInjective(item.was.value.key, item.want.value.key);
      } else if item.was.Some? && item.was.value.key.kind.Namespace? {
        assert item.was.value.key == NamespaceKeyOf(c, n);
      }
    }
  }

  lemma WorkStepWorklist(job: Job, d: Deploy, pick: string, reply: Reply)
    requires d.Working?
    ensures var e := DeployStep(job, d, pick, reply); e.worklist == d.worklist && !e.Listing?
  {
  }

  lemma SameWorklistOk(c: Config, s: Server, n: string, p: Project, d: Deploy, e: Deploy)
    requires d.Working? && DeployOk(c, s, n, p, d)
    requires !e.Listing? && e.worklist == d.worklist && Counted(JobFor(c, p), e)
    ensures DeployOk(c, s, n, p, e)
  {
  }

  lemma WorkStepOk(c: Config, s: Server, t: Server, n: string, p: Project, d: Deploy, pick: string, reply: Reply)
    requires d.Working? && DeployOk(c, s, n, p, d)
    requires Moves(s, t) && (p.deleting ==> NoneGained(s, t, p.uid))
    ensures DeployOk(c, t, n, p, DeployStep(JobFor(c, p), d, pick, reply))
  {
    DeployStable(c, s, t, n, p, d);
    StepCounted(JobFor(c, p), d, pick, reply);
    WorkStepWorklist(JobFor(c, p), d, pick, reply);
    SameWorklistOk(c, t, n, p, d, DeployStep(JobFor(c, p), d, pick, reply));
  }

  // ---- The server after a reconciliation's call -----------------------------------------------

  lemma ServeMoves(s: Server, call: Call, fate: Fate)
    requires ServerOk(s)
    ensures Moves(s, Serve(s, call, fate).0) && ServerOk(Serve(s, call, fate).0)
  {
    ApplyMoves(s, call);
    ApplyOk(s, call);
  }

  lemma ExchangeMoves(c: Config, s: Server, n: string, l: Local, pick: string, fate: Fate)
    requires ServerOk(s)
    ensures var t := Exchange(c, s, n, l, pick, fate).0; Moves(s, t) && ServerOk(t)
  {
    var call := PendingCall(c, n, l, pick);
    if call.Some? {
      ServeMoves(s, call.value, fate);
    }
  }

  /** A call of n leaves other names' projects alone and gives nothing to other UIDs. */
  lemma ExchangeForeign(c: Config, s: Server, n: string, l: Local, pick: string, fate: Fate, m: string, u: string)
    requires c.namespacePrefix != "" && ServerOk(s) && PhaseOk(c, s, n, l.phase)
    requires m != n && u != WorksFor(l.phase)
    ensures var t := Exchange(c, s, n, l, pick, fate).0; Keeps(s, t, m) && NoneGained(s, t, u)
  {
    hide WorkKey, Belongs, JobFor;
    var call := PendingCall(c, n, l, pick);
    if call.Some? {
      if l.phase.Deploying? && l.phase.d.Working? {
        WorkCall(c, s, n, l.phase.project, l.phase.d, pick);
      }
      ApplyKeeps(s, call.value, m);
      ApplyGainsNone(s, call.value, u);
    }
  }

  /** While n is not removing its finalizer, its own calls keep its project, and give it no new object
      when the project is being deleted. */
  lemma ExchangeOwn(c: Config, s: Server, n: string, l: Local, pick: string, fate: Fate)
    requires c.namespacePrefix != "" && ServerOk(s) && PhaseOk(c, s, n, l.phase)
    requires !l.phase.RemovingFinalizer? && !l.phase.AddingFinalizer?
    ensures var t := Exchange(c, s, n, l, pick, fate).0;
            Keeps(s, t, n) && (l.phase.Deploying? && l.phase.project.deleting ==> NoneGained(s, t, l.phase.project.uid))
  {
    var call := PendingCall(c, n, l, pick);
    if call.Some? {
      if l.phase.Deploying? && l.phase.d.Working? {
        WorkCall(c, s, n, l.phase.project, l.phase.d, pick);
      }
      ApplyKeeps(s, call.value, n);
      if l.phase.Deploying? && l.phase.project.deleting {
        ApplyGainsNone(s, call.value, l.phase.project.uid);
      }
    }
  }

  // ---- The reconciliation itself --------------------------------------------------------------

  lemma DeployingMid(c: Config, s: Server, n: string, l: Local, pick: string, fate: Fate)
    requires c.namespacePrefix != "" && ServerOk(s)
    requires l.phase.Deploying? && PhaseOk(c, s, n, l.phase)
    ensures MidDeploy(Exchange(c, s, n, l, pick, fate).0, n, l.phase.project)
  {
    hide WorkKey, Build;
    ExchangeMoves(c, s, n, l, pick, fate);
    ExchangeOwn(c, s, n, l, pick, fate);
  }

  lemma DeployingStep(c: Config, s: Server, n: string, l: Local, pick: string, fate: Fate)
    requires c.namespacePrefix != "" && ServerOk(s) && Homed(c, s)
    requires l.phase.Deploying? && PhaseOk(c, s, n, l.phase)
    ensures var (t, reply) := Exchange(c, s, n, l, pick, fate);
            var p := l.phase.project;
            DeployOk(c, t, n, p, DeployStep(JobFor(c, p), l.phase.d, pick, reply))
  {
    hide WorkKey, Build;
    var (t, reply) := Exchange(c, s, n, l, pick, fate);
    var p, d := l.phase.project, l.phase.d;
    if d.Listing? {
      ListStepOk(c, s, n, p, d, pick, reply);
    } else {
      ExchangeMoves(c, s, n, l, pick, fate);
      ExchangeOwn(c, s, n, l, pick, fate);
      WorkStepOk(c, s, t, n, p, d, pick, reply);
    }
  }

  lemma DeployingOk(c: Config, s: Server, n: string, l: Local, clock: int, pick: string, fate: Fate)
    requires c.namespacePrefix != "" && ServerOk(s) && Homed(c, s)
    requires l.phase.Deploying? && PhaseOk(c, s, n, l.phase)
    ensures var (t, reply) := Exchange(c, s, n, l, pick, fate);
            PhaseOk(c, t, n, Resume(c, l, clock, pick, reply).phase)
  {
    hide WorkKey, Build;
    var (t, reply) := Exchange(c, s, n, l, pick, fate);
    var p, d := l.phase.project, l.phase.d;
    DeployingMid(c, s, n, l, pick, fate);
    DeployingStep(c, s, n, l, pick, fate);
    EnterOk(c, t, n, l.now, clock, p, DeployStep(JobFor(c, p), d, pick, reply));
  }

  lemma AddingOk(c: Config, s: Server, audit: map<string, Worklist>, n: string, l: Local, clock: int, pick: string,
                 fate: Fate)
    requires c.namespacePrefix != "" && ServerInv(c, s, audit)
    requires l.phase.AddingFinalizer? && PhaseOk(c, s, n, l.phase)
    ensures var (t, reply) := Exchange(c, s, n, l, pick, fate);
            PhaseOk(c, t, n, Resume(c, l, clock, pick, reply).phase)
  {
    hide WorkKey, Build;
    var (t, reply) := Exchange(c, s, n, l, pick, fate);
    var p := l.phase.project;
    ExchangeMoves(c, s, n, l, pick, fate);
    if reply.GotProject? {
      assert t.projects[n] == reply.project;
      LeaveOk(c, t, n, l.now, clock, reply.project, Result(true, 0), NoError, None);
    } else {
      LeaveOk(c, t, n, l.now, clock, WithFinalizer(p), Nothing, Wrap(ErrorOf(reply), "error adding finalizer"), None);
    }
  }

  lemma RemovingOk(c: Config, s: Server, n: string, l: Local, clock: int, pick: string, fate: Fate)
    requires c.namespacePrefix != "" && ServerOk(s)
    requires l.phase.RemovingFinalizer? && PhaseOk(c, s, n, l.phase)
    ensures var (t, reply) := Exchange(c, s, n, l, pick, fate);
            PhaseOk(c, t, n, Resume(c, l, clock, pick, reply).phase)
  {
    hide WorkKey, Build;
    var (t, reply) := Exchange(c, s, n, l, pick, fate);
    var p := l.phase.project;
    ExchangeMoves(c, s, n, l, pick, fate);
    if !reply.GotProject? {
      LeaveOk(c, t, n, l.now, clock, WithoutFinalizer(p), Nothing, Wrap(ErrorOf(reply), "error removing finalizer"),
              None);
    }
  }

  lemma OwnPhaseOk(c: Config, s: Server, audit: map<string, Worklist>, n: string, l: Local, clock: int, pick: string,
                   fate: Fate)
    requires c.namespacePrefix != "" && ServerInv(c, s, audit) && PhaseOk(c, s, n, l.phase)
    ensures var (t, reply) := Exchange(c, s, n, l, pick, fate);
            PhaseOk(c, t, n, Resume(c, l, clock, pick, reply).phase)
  {
    match l.phase
    case Fetching =>
      if n in s.projects {
        FetchOk(c, s, audit, n, l.now, clock);
      }
    case AddingFinalizer(_) => AddingOk(c, s, audit, n, l, clock, pick, fate);
    case Deploying(_, _) => DeployingOk(c, s, n, l, clock, pick, fate);
    case RemovingFinalizer(_) => RemovingOk(c, s, n, l, clock, pick, fate);
    case Reporting(_, _, _, _) =>
    case Done(_, _) =>
  }

  lemma PutHomed(c: Config, s: Server, n: string, p: Project, k: Address, o: Stored)
    requires Homed(c, s) && Known(s, n, p) && Held(s, n, p)
    requires OwnerOf(o) == Some(p.uid) && Belongs(c, n, k)
    ensures Homed(c, PutObject(s, k, o))
  {
  }

  lemma DeleteHomed(c: Config, s: Server, k: Key, revision: nat)
    requires Homed(c, s)
    ensures Homed(c, Apply(s, Delete(k, revision)).0)
  {
  }

  lemma StatusHomed(c: Config, s: Server, p: Project)
    requires ServerOk(s) && Homed(c, s)
    ensures Homed(c, Apply(s, UpdateStatus(p)).0)
  {
  }

  lemma AddingHomed(c: Config, s: Server, n: string, p: Project)
    requires ServerOk(s) && Homed(c, s) && PhaseOk(c, s, n, AddingFinalizer(p))
    ensures Homed(c, Apply(s, UpdateProject(WithFinalizer(p))).0)
  {
  }

  lemma RemovingHomed(c: Config, s: Server, n: string, p: Project)
    requires ServerOk(s) && Homed(c, s) && PhaseOk(c, s, n, RemovingFinalizer(p))
    ensures Homed(c, Apply(s, UpdateProject(WithoutFinalizer(p))).0)
  {
  }

  lemma CallHomed(c: Config, s: Server, n: string, p: Project, call: Call)
    requires c.namespacePrefix != "" && Homed(c, s) && Known(s, n, p) && Held(s, n, p)
    requires match call
             case Create(o) => OwnerOf(o) == Some(p.uid) && Belongs(c, n, o.key)
             case Update(o) => OwnerOf(o) == Some(p.uid) && Belongs(c, n, o.key)
             case Delete(_, _) => true
             case _ => false
    ensures Homed(c, Apply(s, call).0)
  {
    match call
    case Create(o) =>
      BelongsAddressable(c, n, o.key);
      PutHomed(c, s, n, p, o.key, Born(o));
    case Update(o) =>
      BelongsAddressable(c, n, o.key);
      if o.key in s.objects {
        PutHomed(c, s, n, p, o.key, Replaced(s.objects[o.key], o));
      }
    case Delete(k, revision) => DeleteHomed(c, s, k, revision);
  }

  lemma WorkHomed(c: Config, s: Server, n: string, p: Project, d: Deploy, pick: string)
    requires c.namespacePrefix != "" && Homed(c, s) && Known(s, n, p) && Held(s, n, p)
    requires d.Working? && DeployOk(c, s, n, p, d) && DeployCall(JobFor(c, p), d, pick).Some?
    ensures Homed(c, Apply(s, DeployCall(JobFor(c, p), d, pick).value).0)
  {
    WorkCall(c, s, n, p, d, pick);
    CallHomed(c, s, n, p, DeployCall(JobFor(c, p), d, pick).value);
  }

  lemma ApplyHomed(c: Config, s: Server, n: string, l: Local, pick: string)
    requires c.namespacePrefix != "" && ServerOk(s) && Homed(c, s) && PhaseOk(c, s, n, l.phase)
    requires PendingCall(c, n, l, pick).Some?
    ensures Homed(c, Apply(s, PendingCall(c, n, l, pick).value).0)
  {
    match l.phase
    case AddingFinalizer(p) => AddingHomed(c, s, n, p);
    case RemovingFinalizer(p) => RemovingHomed(c, s, n, p);
    case Reporting(p, _, _, _) => StatusHomed(c, s, p);
    case Deploying(p, d) =>
      if d.Working? {
        WorkHomed(c, s, n, p, d, pick);
      }
    case Fetching =>
  }

  lemma TruthfulKept(c: Config, p: Project, q: Project, audit: map<string, Worklist>)
    requires Truthful(c, p, audit)
    requires q.name == p.name && q.uid == p.uid && q.spec == p.spec && q.status == p.status
             && q.generation == p.generation
    requires ProjectFinalizer in p.finalizers ==> ProjectFinalizer in q.finalizers
    ensures Truthful(c, q, audit)
  {
  }

  /** A status write is truthful, and the audit it leaves serves no other project. */
  lemma ReportStatuses(c: Config, s: Server, n: string, l: Local, fate: Fate, audit: map<string, Worklist>)
    requires ServerOk(s) && Statuses(c, s, audit) && l.phase.Reporting? && PhaseOk(c, s, n, l.phase)
    ensures Statuses(c, Serve(s, UpdateStatus(l.phase.project), fate).0, Audited(audit, s, l, fate))
  {
    hide WorkKey, Build;
    var p := l.phase.project;
    var t := Serve(s, UpdateStatus(p), fate).0;
    var audit' := Audited(audit, s, l, fate);
    forall m | m in t.projects ensures Truthful(c, t.projects[m], audit') {
      if m != n {
        assert m in s.projects && t.projects[m] == s.projects[m];
        assert s.projects[m].uid != p.uid;
        assert Truthful(c, s.projects[m], audit);
      } else if UpToDate(s, p) && !fate.Dropped? {
        assert Truthful(c, s.projects[n], audit);
      }
    }
  }

  lemma AddingStatuses(c: Config, s: Server, n: string, p: Project, audit: map<string, Worklist>)
    requires ServerOk(s) && Statuses(c, s, audit) && PhaseOk(c, s, n, AddingFinalizer(p))
    ensures Statuses(c, Apply(s, UpdateProject(WithFinalizer(p))).0, audit)
  {
    var t := Apply(s, UpdateProject(WithFinalizer(p))).0;
    forall m | m in t.projects ensures Truthful(c, t.projects[m], audit) {
      assert m in s.projects && Truthful(c, s.projects[m], audit);
      TruthfulKept(c, s.projects[m], t.projects[m], audit);
    }
  }

  lemma RemovingStatuses(c: Config, s: Server, n: string, p: Project, audit: map<string, Worklist>)
    requires ServerOk(s) && Statuses(c, s, audit) && PhaseOk(c, s, n, RemovingFinalizer(p))
    ensures Statuses(c, Apply(s, UpdateProject(WithoutFinalizer(p))).0, audit)
  {
    var t := Apply(s, UpdateProject(WithoutFinalizer(p))).0;
    assert forall m | m in t.projects :: m in s.projects && t.projects[m] == s.projects[m];
  }

  lemma SameProjects(c: Config, s: Server, n: string, l: Local, pick: string, fate: Fate)
    requires l.phase.Fetching? || l.phase.Deploying? || l.phase.Done?
    ensures Exchange(c, s, n, l, pick, fate).0.projects == s.projects
  {
    if l.phase.Deploying? {
      var call := DeployCall(JobFor(c, l.phase.project), l.phase.d, pick);
      assert call.Some? ==> call.value.List? || call.value.Create? || call.value.Delete? || call.value.Update?;
    }
  }

  lemma ExchangeStatuses(c: Config, s: Server, n: string, l: Local, pick: string, fate: Fate,
                         audit: map<string, Worklist>)
    requires ServerOk(s) && Statuses(c, s, audit) && PhaseOk(c, s, n, l.phase)
    ensures Statuses(c, Exchange(c, s, n, l, pick, fate).0, Audited(audit, s, l, fate))
  {
    if l.phase.AddingFinalizer? {
      AddingStatuses(c, s, n, l.phase.project, audit);
    } else if l.phase.RemovingFinalizer? {
      RemovingStatuses(c, s, n, l.phase.project, audit);
    } else if l.phase.Reporting? {
      ReportStatuses(c, s, n, l, fate, audit);
    } else {
      SameProjects(c, s, n, l, pick, fate);
    }
  }

  /** One step of a reconciliation keeps the invariant, whatever becomes of its call. */
  lemma AdvanceKeeps(c: Config, sys: System, n: string, clock: int, pick: string, fate: Fate)
    requires Inv(c, sys)
    ensures Inv(c, Next(c, sys, Advance(n, clock, pick, fate)))
  {
    if Running(sys, n) {
      var s, l := sys.server, sys.active[n];
      var next := Next(c, sys, Advance(n, clock, pick, fate));
      NextIs(c, sys, n, clock, pick, fate);
      ExchangeKeeps(c, s, n, l, pick, fate, sys.audit);
      OwnPhaseOk(c, s, sys.audit, n, l, clock, pick, fate);
      forall m | m in next.active && m != n ensures PhaseOk(c, next.server, m, next.active[m].phase) {
        OtherPhaseOk(c, s, n, l, pick, fate, m, sys.active[m].phase);
      }
    }
  }

  /** An advance, spelled out. */
  lemma NextIs(c: Config, sys: System, n: string, clock: int, pick: string, fate: Fate)
    requires Running(sys, n)
    ensures var next := Next(c, sys, Advance(n, clock, pick, fate));
            var (t, reply) := Exchange(c, sys.server, n, sys.active[n], pick, fate);
            && next.server == t && next.audit == Audited(sys.audit, sys.server, sys.active[n], fate)
            && next.active == sys.active[n := Resume(c, sys.active[n], clock, pick, reply)]
  {
  }

  /** The call of a reconciliation keeps what the invariant says of the server. */
  lemma ExchangeKeeps(c: Config, s: Server, n: string, l: Local, pick: string, fate: Fate, audit: map<string, Worklist>)
    requires c.namespacePrefix != "" && ServerInv(c, s, audit) && PhaseOk(c, s, n, l.phase)
    ensures ServerInv(c, Exchange(c, s, n, l, pick, fate).0, Audited(audit, s, l, fate))
  {
    ExchangeMoves(c, s, n, l, pick, fate);
    ExchangeStatuses(c, s, n, l, pick, fate, audit);
    ExchangeHomed(c, s, n, l, pick, fate);
  }

  lemma ExchangeHomed(c: Config, s: Server, n: string, l: Local, pick: string, fate: Fate)
    requires c.namespacePrefix != "" && ServerOk(s) && Homed(c, s) && PhaseOk(c, s, n, l.phase)
    ensures Homed(c, Exchange(c, s, n, l, pick, fate).0)
  {
    if PendingCall(c, n, l, pick).Some? {
      ApplyHomed(c, s, n, l, pick);
    }
  }

  lemma OtherPhaseOk(c: Config, s: Server, n: string, l: Local, pick: string, fate: Fate, m: string, phase: Phase)
    requires c.namespacePrefix != "" && ServerOk(s) && PhaseOk(c, s, n, l.phase) && PhaseOk(c, s, m, phase) && m != n
    ensures PhaseOk(c, Exchange(c, s, n, l, pick, fate).0, m, phase)
  {
    if !phase.Fetching? && !phase.Done? {
      if !l.phase.Fetching? && !l.phase.Done? {
        ExchangeMoves(c, s, n, l, pick, fate);
        ExchangeForeign(c, s, n, l, pick, fate, m, WorksFor(phase));
        PhaseStable(c, s, Exchange(c, s, n, l, pick, fate).0, m, phase);
      } else {
        assert Exchange(c, s, n, l, pick, fate).0 == s;
      }
    }
  }

  lemma NextKeeps(c: Config, sys: System, step: Step)
    requires Inv(c, sys)
    ensures Inv(c, Next(c, sys, step))
  {
    match step
    case Environment(a) => EnvironmentKeeps(c, sys, a);
    case Begin(_, _) =>
    case Advance(n, clock, pick, fate) => AdvanceKeeps(c, sys, n, clock, pick, fate);
  }

  lemma {:induction false} RunKeeps(c: Config, sys: System, steps: seq<Step>)
    requires Inv(c, sys)
    ensures Inv(c, Run(c, sys, steps))
    decreases |steps|
  {
    if steps != [] {
      NextKeeps(c, sys, steps[0]);
      RunKeeps(c, Next(c, sys, steps[0]), steps[1..]);
    }
  }
}
