/** What a Ready status rests on, told over the run that led to it. */
module History {
  import opened Kubernetes
  import opened Names
  import opened ApiServer
  import opened Deployment
  import opened Compilation
  import opened Controller
  import opened Runs
  import opened Safety
  import opened Guarantees

  /** The system after the first i steps. */
  function At(c: Config, start: System, steps: seq<Step>, i: nat): System
    requires i <= |steps|
  {
    Run(c, start, steps[..i])
  }

  lemma {:induction false} RunOneMore(c: Config, sys: System, steps: seq<Step>, step: Step)
    ensures Run(c, sys, steps + [step]) == Next(c, Run(c, sys, steps), step)
    decreases |steps|
  {
    if steps == [] {
      assert [step][1..] == [];
      assert Run(c, sys, [step]) == Run(c, Next(c, sys, step), []);
    } else {
      assert (steps + [step])[1..] == steps[1..] + [step];
      RunOneMore(c, Next(c, sys, steps[0]), steps[1..], step);
    }
  }

  lemma AtOneMore(c: Config, start: System, steps: seq<Step>, step: Step)
    ensures forall i: nat | i <= |steps| :: At(c, start, steps + [step], i) == At(c, start, steps, i)
    ensures At(c, start, steps, |steps|) == Run(c, start, steps)
    ensures At(c, start, steps + [step], |steps| + 1) == Next(c, Run(c, start, steps), step)
  {
    forall i: nat | i <= |steps| ensures (steps + [step])[..i] == steps[..i] {
    }
    assert steps[..|steps|] == steps && (steps + [step])[..|steps| + 1] == steps + [step];
    RunOneMore(c, start, steps, step);
  }

  /** The server holds exactly o. */
  predicate Holds(s: Server, o: Stored) {
    Addressable(o.key) && o.key in s.objects && s.objects[o.key] == o
  }

  /** After i steps the server held exactly o, while a reconciliation of n was under way that went on at
      least until after j steps. */
  ghost predicate HeldDuring(c: Config, start: System, steps: seq<Step>, n: string, o: Stored, i: nat, j: nat)
    requires j <= |steps|
  {
    && i <= j
    && Holds(At(c, start, steps, i).server, o)
    && forall m: nat | i <= m <= j :: Running(At(c, start, steps, m), n)
  }

  /** Everything listed in w was held by the server during the reconciliation of n that was under way
      after j steps. */
  ghost predicate Witnessed(c: Config, start: System, steps: seq<Step>, n: string, w: Worklist, j: nat)
    requires j <= |steps|
  {
    forall x | x in w && w[x].was.Some? :: exists i :: HeldDuring(c, start, steps, n, w[x].was.value, i, j)
  }

  /** The step after the first j is the status write by which the reconciliation of n, on behalf of u,
      reports what rests on w. */
  ghost predicate WritesReport(c: Config, start: System, steps: seq<Step>, n: string, u: string, w: Worklist, j: nat) {
    && j < |steps| && steps[j].Advance? && steps[j].name == n
    && var sys := At(c, start, steps, j);
    && Running(sys, n) && sys.active[n].phase.Reporting?
    && sys.active[n].phase.project.uid == u && sys.active[n].phase.basis == Some(w)
  }

  /** The listing a reconciliation has in hand. */
  function InHand(phase: Phase): Worklist {
    match phase
    case Deploying(_, d) => d.worklist
    case Reporting(_, _, _, Some(w)) => w
    case _ => map[]
  }

  ghost predicate HasReport(c: Config, start: System, steps: seq<Step>, n: string, u: string, w: Worklist) {
    exists j :: WritesReport(c, start, steps, n, u, w, j) && Witnessed(c, start, steps, n, w, j)
  }

  ghost predicate Accounted(c: Config, start: System, steps: seq<Step>) {
    var sys := Run(c, start, steps);
    && (forall n | Running(sys, n) :: Witnessed(c, start, steps, n, InHand(sys.active[n].phase), |steps|))
    && (forall u | u in sys.audit ::
          u in sys.server.issued && HasReport(c, start, steps, sys.server.issued[u], u, sys.audit[u]))
  }

  // ---- What a step adds to the listing in hand ------------------------------------------------

  /** Everything listed in w was listed in v or is held by the server. */
  ghost predicate Grows(s: Server, v: Worklist, w: Worklist) {
    forall x | x in w && w[x].was.Some? ::
      || (x in v && v[x].was == w[x].was)
      || Holds(s, w[x].was.value)
  }

  lemma MergeGrows(s: Server, v: Worklist, kind: Kind, u: string)
    requires ObjectsOk(s)
    ensures Grows(s, v, Merge(v, ListReply(s, kind, u)))
  {
    hide WorkKey;
    var items := ListReply(s, kind, u);
    forall x | x in Merge(v, items)
      ensures (x in v && v[x].was == Merge(v, items)[x].was)
              || (Merge(v, items)[x].was.Some? && Holds(s, Merge(v, items)[x].was.value))
    {
      var k := MergeEntry(v, items, x);
      if k.Some? {
        assert items[k.value] == s.objects[k.value] && s.objects[k.value].key == k.value;
      }
    }
  }

  lemma AfterListingGrows(s: Server, job: Job, v: Worklist, w: Worklist)
    requires OnlyListed(w) && Grows(s, v, w)
    ensures Grows(s, v, AfterListing(job, w).worklist)
  {
    hide WorkKey;
    JoinIsOuterJoin(job, w, |job.objects|);
  }

  lemma DeployGrows(s: Server, job: Job, d: Deploy, pick: string, reply: Reply)
    requires ObjectsOk(s) && Counted(job, d)
    requires d.Listing? && reply.Listed? ==> reply == Apply(s, List(job.managed[d.next], LabelKeyOwner, job.owner)).1
    ensures Grows(s, d.worklist, DeployStep(job, d, pick, reply).worklist)
  {
    hide WorkKey;
    if d.Listing? && reply.Listed? {
      MergeGrows(s, d.worklist, job.managed[d.next], job.owner);
      MergeOnlyListed(d.worklist, reply.items);
      AfterListingGrows(s, job, d.worklist, Merge(d.worklist, reply.items));
    }
  }

  lemma EnterInHand(c: Config, now: int, clock: int, p: Project, d: Deploy)
    ensures InHand(Enter(c, now, clock, p, d)) == d.worklist || InHand(Enter(c, now, clock, p, d)) == map[]
  {
  }

  lemma FetchInHand(c: Config, now: int, clock: int, read: Project)
    ensures InHand(AfterFetch(c, now, clock, read)) == map[]
  {
    var p := read.(status := read.status.(namespace := NamespaceName(c, read.name)));
    EnterInHand(c, now, clock, p, Start(JobFor(c, p)));
  }

  /** One step of a reconciliation adds to the listing it has in hand only what the server holds. */
  lemma StepGrows(c: Config, s: Server, n: string, l: Local, clock: int, pick: string, fate: Fate)
    requires ServerOk(s) && PhaseOk(c, s, n, l.phase)
    ensures var reply := Exchange(c, s, n, l, pick, fate).1;
            Grows(s, InHand(l.phase), InHand(Resume(c, l, clock, pick, reply).phase))
  {
    hide WorkKey, Build;
    var reply := Exchange(c, s, n, l, pick, fate).1;
    match l.phase
    case Fetching =>
      if reply.GotProject? {
        FetchInHand(c, l.now, clock, reply.project);
      }
    case Deploying(p, d) =>
      DeployGrows(s, JobFor(c, p), d, pick, reply);
      EnterInHand(c, l.now, clock, p, DeployStep(JobFor(c, p), d, pick, reply));
    case _ =>
  }

  // ---- One more step of the run ---------------------------------------------------------------

  lemma HeldMore(c: Config, start: System, steps: seq<Step>, step: Step, n: string, o: Stored, i: nat, j: nat)
    requires j <= |steps| && HeldDuring(c, start, steps, n, o, i, j)
    ensures HeldDuring(c, start, steps + [step], n, o, i, j)
    ensures j == |steps| && Running(Next(c, Run(c, start, steps), step), n) ==>
              HeldDuring(c, start, steps + [step], n, o, i, j + 1)
  {
    AtOneMore(c, start, steps, step);
    hide WorkKey, Belongs, JobFor, Run, Next;
  }

  lemma WitnessedStill(c: Config, start: System, steps: seq<Step>, step: Step, n: string, w: Worklist, j: nat)
    requires j <= |steps| && Witnessed(c, start, steps, n, w, j)
    ensures Witnessed(c, start, steps + [step], n, w, j)
  {
    forall x | x in w && w[x].was.Some?
      ensures exists i :: HeldDuring(c, start, steps + [step], n, w[x].was.value, i, j)
    {
      var i :| HeldDuring(c, start, steps, n, w[x].was.value, i, j);
      HeldMore(c, start, steps, step, n, w[x].was.value, i, j);
    }
  }

  /** The same reconciliation one step later, with what it has listed in that step. */
  lemma WitnessedMore(c: Config, start: System, steps: seq<Step>, step: Step, n: string, v: Worklist, w: Worklist)
    requires Witnessed(c, start, steps, n, v, |steps|)
    requires var sys := Run(c, start, steps);
             Running(sys, n) && Running(Next(c, sys, step), n) && Grows(sys.server, v, w)
    ensures Witnessed(c, start, steps + [step], n, w, |steps| + 1)
  {
    var k, k1 := |steps|, |steps| + 1;
    AtOneMore(c, start, steps, step);
    forall x | x in w && w[x].was.Some?
      ensures exists i :: HeldDuring(c, start, steps + [step], n, w[x].was.value, i, k1)
    {
      var o := w[x].was.value;
      if x in v && v[x].was == w[x].was {
        var i :| HeldDuring(c, start, steps, n, o, i, k);
        HeldMore(c, start, steps, step, n, o, i, k);
      } else {
        assert HeldDuring(c, start, steps, n, o, k, k);
        HeldMore(c, start, steps, step, n, o, k, k);
      }
    }
  }

  lemma ReportedStill(c: Config, start: System, steps: seq<Step>, step: Step, n: string, u: string, w: Worklist)
    requires HasReport(c, start, steps, n, u, w)
    ensures HasReport(c, start, steps + [step], n, u, w)
  {
    var j :| WritesReport(c, start, steps, n, u, w, j) && Witnessed(c, start, steps, n, w, j);
    AtOneMore(c, start, steps, step);
    WitnessedStill(c, start, steps, step, n, w, j);
    assert WritesReport(c, start, steps + [step], n, u, w, j);
  }

  predicate StayIssued(s: Server, t: Server) {
    forall u | u in s.issued :: u in t.issued && t.issued[u] == s.issued[u]
  }

  lemma NextIssued(c: Config, sys: System, step: Step)
    requires ServerOk(sys.server)
    ensures StayIssued(sys.server, Next(c, sys, step).server)
  {
    match step
    case Environment(a) => ActMoves(sys.server, a);
    case Begin(_, _) =>
    case Advance(n, _, pick, fate) =>
      if Running(sys, n) {
        ExchangeMoves(c, sys.server, n, sys.active[n], pick, fate);
      }
  }

  /** What is in hand after a step grew out of what was in hand before. */
  lemma NextGrows(c: Config, sys: System, step: Step, n: string)
    requires Inv(c, sys) && Running(sys, n)
    ensures var next := Next(c, sys, step);
            n in next.active && Grows(sys.server, InHand(sys.active[n].phase), InHand(next.active[n].phase))
  {
    hide WorkKey, Belongs, JobFor;
    if step.Advance? && step.name == n {
      StepGrows(c, sys.server, n, sys.active[n], step.clock, step.pick, step.fate);
    }
  }

  lemma InHandMore(c: Config, start: System, steps: seq<Step>, step: Step, n: string)
    requires Accounted(c, start, steps) && Inv(c, Run(c, start, steps))
    requires Running(Next(c, Run(c, start, steps), step), n)
    ensures var phase := Next(c, Run(c, start, steps), step).active[n].phase;
            Witnessed(c, start, steps + [step], n, InHand(phase), |steps| + 1)
  {
    var sys := Run(c, start, steps);
    var next := Next(c, sys, step);
    if Running(sys, n) {
      NextGrows(c, sys, step, n);
      WitnessedMore(c, start, steps, step, n, InHand(sys.active[n].phase), InHand(next.active[n].phase));
    } else {
      assert next.active[n].phase == Fetching;
    }
  }

  /** A new audit entry is the report being written in this step. */
  lemma AuditMore(c: Config, start: System, steps: seq<Step>, step: Step, u: string)
    requires Accounted(c, start, steps) && Inv(c, Run(c, start, steps))
    requires u in Next(c, Run(c, start, steps), step).audit
    ensures var next := Next(c, Run(c, start, steps), step);
            u in next.server.issued && HasReport(c, start, steps + [step], next.server.issued[u], u, next.audit[u])
  {
    var sys := Run(c, start, steps);
    var next := Next(c, sys, step);
    NextIssued(c, sys, step);
    if u in sys.audit && next.audit[u] == sys.audit[u] {
      ReportedStill(c, start, steps, step, sys.server.issued[u], u, sys.audit[u]);
    } else {
      ReportIsNow(c, sys, step, u);
      AtOneMore(c, start, steps, step);
      WitnessedStill(c, start, steps, step, step.name, next.audit[u], |steps|);
      assert WritesReport(c, start, steps + [step], step.name, u, next.audit[u], |steps|);
    }
  }

  lemma ReportIsNow(c: Config, sys: System, step: Step, u: string)
    requires Inv(c, sys) && u in Next(c, sys, step).audit
    requires u !in sys.audit || Next(c, sys, step).audit[u] != sys.audit[u]
    ensures step.Advance? && Running(sys, step.name)
    ensures var phase := sys.active[step.name].phase;
            && phase.Reporting? && phase.project.uid == u && phase.basis == Some(Next(c, sys, step).audit[u])
            && u in sys.server.issued && sys.server.issued[u] == step.name
  {
  }

  lemma {:induction false} EverythingAccounted(c: Config, start: System, steps: seq<Step>)
    requires Initial(c, start)
    ensures Accounted(c, start, steps)
    decreases |steps|
  {
    if steps != [] {
      var less, step := steps[..|steps| - 1], steps[|steps| - 1];
      assert less + [step] == steps;
      EverythingAccounted(c, start, less);
      RunKeeps(c, start, less);
      RunOneMore(c, start, less, step);
      var next := Next(c, Run(c, start, less), step);
      forall n | Running(next, n) ensures Witnessed(c, start, steps, n, InHand(next.active[n].phase), |steps|) {
        InHandMore(c, start, less, step, n);
      }
      forall u | u in next.audit
        ensures u in next.server.issued && HasReport(c, start, steps, next.server.issued[u], u, next.audit[u])
      {
        AuditMore(c, start, less, step, u);
      }
    }
  }

  // ---- The write behind a persisted Ready -----------------------------------------------------

  /** The step after the first j is the accepted status write by which the reconciliation of n, on behalf
      of u, persisted st, resting on w. */
  ghost predicate Persisted(c: Config, start: System, steps: seq<Step>, n: string, u: string, w: Worklist,
                            st: Status, j: nat) {
    && WritesReport(c, start, steps, n, u, w, j) && !steps[j].fate.Dropped?
    && var sys := At(c, start, steps, j);
    UpToDate(sys.server, sys.active[n].phase.project) && sys.active[n].phase.project.status == st
  }

  lemma PersistedStill(c: Config, start: System, steps: seq<Step>, step: Step, n: string, u: string, w: Worklist,
                       st: Status, j: nat)
    requires Persisted(c, start, steps, n, u, w, st, j)
    ensures Persisted(c, start, steps + [step], n, u, w, st, j)
  {
    hide WorkKey, Belongs, JobFor, Run, Next;
    AtOneMore(c, start, steps, step);
  }

  /** A stored Ready and the audit entry of its project go back to one accepted write. */
  ghost predicate ReadyTraced(c: Config, start: System, steps: seq<Step>, n: string) {
    var sys := Run(c, start, steps);
    n in sys.server.projects && sys.server.projects[n].status.state == Ready ==>
      var p := sys.server.projects[n];
      p.uid in sys.audit && exists j :: Persisted(c, start, steps, n, p.uid, sys.audit[p.uid], p.status, j)
  }

  /** The project of n, its status and its audit entry are as before. */
  predicate StatusKept(sys: System, next: System, n: string)
    requires n in next.server.projects
  {
    var q := next.server.projects[n];
    && n in sys.server.projects && sys.server.projects[n].uid == q.uid && sys.server.projects[n].status == q.status
    && (q.uid in sys.audit ==> q.uid in next.audit && next.audit[q.uid] == sys.audit[q.uid])
  }

  /** The step is the accepted write of the status the project of n has from now on. */
  predicate StatusWritten(sys: System, next: System, step: Step, n: string)
    requires n in next.server.projects
  {
    var q := next.server.projects[n];
    && step.Advance? && step.name == n && !step.fate.Dropped? && Running(sys, n) && sys.active[n].phase.Reporting?
    && var phase := sys.active[n].phase;
    && UpToDate(sys.server, phase.project) && phase.project.uid == q.uid && phase.project.status == q.status
    && q.uid in next.audit && phase.basis == Some(next.audit[q.uid])
  }

  lemma ActStatus(sys: System, a: Action, n: string)
    requires n in Act(sys.server, a).projects && Act(sys.server, a).projects[n].status.state == Ready
    requires ServerOk(sys.server)
    ensures StatusKept(sys, sys.(server := Act(sys.server, a)), n)
  {
    hide WorkKey, Build;
  }

  /** A call other than a status write keeps every status. */
  lemma CallKeepsStatus(s: Server, call: Call, n: string)
    requires ServerOk(s) && !call.UpdateStatus? && n in Apply(s, call).0.projects
    ensures n in s.projects && s.projects[n].uid == Apply(s, call).0.projects[n].uid
    ensures s.projects[n].status == Apply(s, call).0.projects[n].status
  {
    hide WorkKey, Build;
    if !call.UpdateProject? {
      assert Apply(s, call).0.projects == s.projects;
    }
  }

  lemma ReportStatus(c: Config, sys: System, m: string, clock: int, pick: string, fate: Fate, n: string)
    requires Inv(c, sys) && Running(sys, m) && sys.active[m].phase.Reporting?
    requires var next := Next(c, sys, Advance(m, clock, pick, fate));
             n in next.server.projects && next.server.projects[n].status.state == Ready
    ensures var next := Next(c, sys, Advance(m, clock, pick, fate));
            StatusKept(sys, next, n) || StatusWritten(sys, next, Advance(m, clock, pick, fate), n)
  {
    hide WorkKey, Build;
    NextIs(c, sys, m, clock, pick, fate);
    ReportEffect(c, sys.server, sys.audit, m, sys.active[m], fate, n);
  }

  /** What a status write, whatever its fate, does to the project of n and to the audit. */
  lemma ReportEffect(c: Config, s: Server, audit: map<string, Worklist>, m: string, l: Local, fate: Fate, n: string)
    requires ServerOk(s) && l.phase.Reporting? && PhaseOk(c, s, m, l.phase)
    requires var t := Serve(s, UpdateStatus(l.phase.project), fate).0;
             n in t.projects && t.projects[n].status.state == Ready
    ensures var t, b := Serve(s, UpdateStatus(l.phase.project), fate).0, Audited(audit, s, l, fate);
            var q := t.projects[n];
            || (&& n in s.projects && s.projects[n].uid == q.uid && s.projects[n].status == q.status
                && (q.uid in audit ==> q.uid in b && b[q.uid] == audit[q.uid]))
            || (&& n == m && !fate.Dropped? && UpToDate(s, l.phase.project)
                && l.phase.project.uid == q.uid && l.phase.project.status == q.status
                && q.uid in b && l.phase.basis == Some(b[q.uid]))
  {
    hide WorkKey, Build;
    if UpToDate(s, l.phase.project) && !fate.Dropped? {
      WriteStatus(c, s, m, l.phase.project, l.phase.basis);
      if n != m {
        assert s.projects[n].uid != l.phase.project.uid;
      }
    } else {
      NoWrite(s, l.phase.project, fate);
    }
  }

  /** An accepted status write replaces the status of its own project alone. */
  lemma WriteStatus(c: Config, s: Server, m: string, p: Project, basis: Option<Worklist>)
    requires ServerOk(s) && ReportOk(c, s, m, p, basis) && UpToDate(s, p)
    ensures var t := Apply(s, UpdateStatus(p)).0;
            && p.name == m && p.uid in s.issued && s.issued[p.uid] == m
            && t.projects == (if m in t.projects then s.projects[m := t.projects[m]] else s.projects - {m})
            && (m in t.projects ==> t.projects[m].uid == p.uid && t.projects[m].status == p.status)
            && (p.status.state == Ready ==> basis.Some?)
  {
    hide WorkKey, Build;
  }

  lemma NoWrite(s: Server, p: Project, fate: Fate)
    requires fate.Dropped? || !UpToDate(s, p)
    ensures Serve(s, UpdateStatus(p), fate).0 == s
  {
    hide WorkKey, Build;
  }

  lemma NextStatus(c: Config, sys: System, step: Step, n: string)
    requires Inv(c, sys)
    requires n in Next(c, sys, step).server.projects && Next(c, sys, step).server.projects[n].status.state == Ready
    ensures var next := Next(c, sys, step); StatusKept(sys, next, n) || StatusWritten(sys, next, step, n)
  {
    match step
    case Environment(a) => ActStatus(sys, a, n);
    case Begin(_, _) =>
    case Advance(m, clock, pick, fate) =>
      if Running(sys, m) {
        if sys.active[m].phase.Reporting? {
          ReportStatus(c, sys, m, clock, pick, fate, n);
        } else {
          OtherStatus(c, sys, m, clock, pick, fate, n);
        }
      }
  }

  lemma OtherStatus(c: Config, sys: System, m: string, clock: int, pick: string, fate: Fate, n: string)
    requires Inv(c, sys) && Running(sys, m) && !sys.active[m].phase.Reporting?
    requires n in Next(c, sys, Advance(m, clock, pick, fate)).server.projects
    ensures StatusKept(sys, Next(c, sys, Advance(m, clock, pick, fate)), n)
  {
    hide WorkKey, Build;
    var l := sys.active[m];
    var call := PendingCall(c, m, l, pick);
    NextIs(c, sys, m, clock, pick, fate);
    if call.Some? {
      PendingIsNoReport(c, m, l, pick);
      var t := Serve(sys.server, call.value, fate).0;
      if t != sys.server {
        CallKeepsStatus(sys.server, call.value, n);
      }
    }
  }

  lemma PendingIsNoReport(c: Config, m: string, l: Local, pick: string)
    requires PendingCall(c, m, l, pick).Some? && !l.phase.Reporting?
    ensures !PendingCall(c, m, l, pick).value.UpdateStatus?
  {
    hide WorkKey, Build;
  }

  lemma {:induction false} EveryReadyTraced(c: Config, start: System, steps: seq<Step>, n: string)
    requires Initial(c, start)
    ensures ReadyTraced(c, start, steps, n)
    decreases |steps|
  {
    if steps != [] {
      var less, step := steps[..|steps| - 1], steps[|steps| - 1];
      assert less + [step] == steps;
      EveryReadyTraced(c, start, less, n);
      RunKeeps(c, start, less);
      AtOneMore(c, start, less, step);
      RunOneMore(c, start, less, step);
      var sys := Run(c, start, less);
      var next := Next(c, sys, step);
      if n in next.server.projects && next.server.projects[n].status.state == Ready {
        NextStatus(c, sys, step, n);
        var q := next.server.projects[n];
        if StatusKept(sys, next, n) {
          var j :| Persisted(c, start, less, n, q.uid, sys.audit[q.uid], q.status, j);
          PersistedStill(c, start, less, step, n, q.uid, sys.audit[q.uid], q.status, j);
        } else {
          assert Persisted(c, start, steps, n, q.uid, next.audit[q.uid], q.status, |less|);
        }
      }
    }
  }

  /** What is in hand at a report was held by the server while its reconciliation was under way. */
  lemma ReportWitnessed(c: Config, start: System, steps: seq<Step>, n: string, u: string, w: Worklist, j: nat)
    requires Initial(c, start) && WritesReport(c, start, steps, n, u, w, j)
    ensures Witnessed(c, start, steps, n, w, j)
  {
    hide WorkKey, Belongs, JobFor, Run, Next;
    var some := steps[..j];
    EverythingAccounted(c, start, some);
    forall m: nat | m <= j ensures At(c, start, some, m) == At(c, start, steps, m) {
      assert some[..m] == steps[..m];
    }
    assert some[..j] == some;
    forall x | x in w && w[x].was.Some?
      ensures exists i :: HeldDuring(c, start, steps, n, w[x].was.value, i, j)
    {
      var i :| HeldDuring(c, start, some, n, w[x].was.value, i, j);
      assert HeldDuring(c, start, steps, n, w[x].was.value, i, j);
    }
  }

  /** Truthful Ready, over every run: when a persisted status says Ready for the current generation, then
      that very status was persisted by an earlier, accepted write of a reconciliation of this project,
      which rests on a listing whose keys and digests are exactly those built from the current spec; and
      every object in that listing was owned and ready, and was held by the server, exactly so, at some
      moment while that same reconciliation was under way. */
  lemma ReadyIsTruthful(c: Config, start: System, steps: seq<Step>, n: string) returns (w: Worklist, j: nat)
    requires Initial(c, start)
    requires var s := Run(c, start, steps).server;
             n in s.projects && s.projects[n].status.state == Ready
             && s.projects[n].status.observedGeneration == s.projects[n].generation
    ensures var p := Run(c, start, steps).server.projects[n];
            && Persisted(c, start, steps, n, p.uid, w, p.status, j) && Evidence(c, n, p.uid, p.spec, w)
            && (forall x | x in w :: exists i :: HeldDuring(c, start, steps, n, w[x].was.value, i, j))
            && ProjectFinalizer in p.finalizers
  {
    var sys := Run(c, start, steps);
    assert Reachable(c, sys);
    ReadyIsAudited(c, sys, n);
    EveryReadyTraced(c, start, steps, n);
    var p := sys.server.projects[n];
    w := sys.audit[p.uid];
    j :| Persisted(c, start, steps, n, p.uid, w, p.status, j);
    ReportWitnessed(c, start, steps, n, p.uid, w, j);
  }
}
