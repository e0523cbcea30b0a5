/** A reconciliation nobody interferes with: how it is a run of the system, and that it can always be
    carried to its end. */
module Solo {
  import opened Kubernetes
  import opened Names
  import opened ApiServer
  import opened Deployment
  import opened Compilation
  import opened Controller
  import opened Runs

  /** What one step of the reconciliation of n does to the server and to itself when its pending call
      is served. */
  function ServedStep(c: Config, s: Server, n: string, l: Local, clock: int, pick: string): (Server, Local) {
    var (t, reply) := Exchange(c, s, n, l, pick, Served);
    (t, Resume(c, l, clock, pick, reply))
  }

  /** A reconciliation alone with the server, every call served; picks gives its processing order. */
  function Drive(c: Config, s: Server, n: string, l: Local, clock: int, picks: seq<string>): (Server, Local)
    decreases |picks|
  {
    if picks == [] || l.phase.Done? then (s, l)
    else var (t, m) := ServedStep(c, s, n, l, clock, picks[0]); Drive(c, t, n, m, clock, picks[1..])
  }

  /** One undisturbed Reconcile call: when it begins, what the clock shows during it, and the order in
      which it works off its worklist. */
  datatype Visit = Visit(now: int, clock: int, picks: seq<string>)

  /** The server after a visit to n. */
  function After(c: Config, s: Server, n: string, v: Visit): Server {
    Drive(c, s, n, Local(v.now, Fetching), v.clock, v.picks).0
  }

  /** The order is long enough to carry the visit to its end. */
  predicate Completes(c: Config, s: Server, n: string, v: Visit) {
    Drive(c, s, n, Local(v.now, Fetching), v.clock, v.picks).1.phase.Done?
  }

  // ---- Driving is running -------------------------------------------------------------------

  /** The steps of the system that make up a drive. */
  function Steps(n: string, clock: int, picks: seq<string>): seq<Step> {
    seq(|picks|, i requires 0 <= i < |picks| => Advance(n, clock, picks[i], Served))
  }

  /** A drive is a run of the system in which only the reconciliation of n takes steps. */
  lemma {:induction false} DriveIsRun(c: Config, sys: System, n: string, clock: int, picks: seq<string>)
    requires n in sys.active
    ensures var next := Run(c, sys, Steps(n, clock, picks));
            n in next.active && (next.server, next.active[n]) == Drive(c, sys.server, n, sys.active[n], clock, picks)
    decreases |picks|
  {
    if picks != [] {
      var next := Next(c, sys, Advance(n, clock, picks[0], Served));
      assert Steps(n, clock, picks)[1..] == Steps(n, clock, picks[1..]);
      DriveIsRun(c, next, n, clock, picks[1..]);
      if sys.active[n].phase.Done? {
        assert next == sys;
      }
    }
  }

  /** A completed visit is a run of the system, from the manager's request to the answer. */
  lemma VisitIsRun(c: Config, sys: System, n: string, v: Visit)
    requires !Running(sys, n) && Completes(c, sys.server, n, v)
    ensures var next := Run(c, sys, [Step.Begin(n, v.now)] + Steps(n, v.clock, v.picks));
            next.server == After(c, sys.server, n, v) && n in next.active && !Running(next, n)
  {
    var begun := Next(c, sys, Step.Begin(n, v.now));
    var steps := [Step.Begin(n, v.now)] + Steps(n, v.clock, v.picks);
    assert steps[1..] == Steps(n, v.clock, v.picks);
    DriveIsRun(c, begun, n, v.clock, v.picks);
  }

  lemma {:induction false} DriveConcat(c: Config, s: Server, n: string, l: Local, clock: int,
                                       first: seq<string>, second: seq<string>)
    ensures var (t, m) := Drive(c, s, n, l, clock, first);
            Drive(c, s, n, l, clock, first + second) == Drive(c, t, n, m, clock, second)
    decreases |first|
  {
    if first == [] {
      assert first + second == second;
    } else if !l.phase.Done? {
      var (t, m) := ServedStep(c, s, n, l, clock, first[0]);
      assert (first + second)[1..] == first[1..] + second;
      DriveConcat(c, t, n, m, clock, first[1..], second);
    }
  }

  // ---- A schedule that completes always exists ----------------------------------------------

  function PhaseRank(phase: Phase): nat {
    match phase
    case Fetching => 4
    case Deploying(_, _) => 3
    case AddingFinalizer(_) => 2
    case RemovingFinalizer(_) => 2
    case Reporting(_, _, _, _) => 1
    case Done(_, _) => 0
  }

  /** Kinds to list, then items to work off. */
  function DeployRank(phase: Phase): (nat, nat) {
    match phase
    case Deploying(_, Listing(next, _)) => (if next < |Managed| then 1 + |Managed| - next else 1, 0)
    case Deploying(_, Working(_, todo, _)) => (0, |todo|)
    case _ => (0, 0)
  }

  ghost predicate DeployCounted(c: Config, phase: Phase) {
    phase.Deploying? ==> !phase.d.Returned? && Counted(JobFor(c, phase.project), phase.d)
  }

  predicate Before(a: Phase, b: Phase) {
    || PhaseRank(a) < PhaseRank(b)
    || (PhaseRank(a) == PhaseRank(b) && DeployRank(a).0 < DeployRank(b).0)
    || (PhaseRank(a) == PhaseRank(b) && DeployRank(a).0 == DeployRank(b).0 && DeployRank(a).1 < DeployRank(b).1)
  }

  lemma DeploySteps(c: Config, s: Server, n: string, l: Local, clock: int) returns (pick: string)
    requires DeployCounted(c, l.phase) && l.phase.Deploying?
    ensures var m := ServedStep(c, s, n, l, clock, pick).1; DeployCounted(c, m.phase) && Before(m.phase, l.phase)
  {
    hide WorkKey, Build;
    var p, d := l.phase.project, l.phase.d;
    pick := "";
    if d.Working? {
      pick :| pick in d.todo;
    }
    var reply := Exchange(c, s, n, l, pick, Served).1;
    StepCounted(JobFor(c, p), d, pick, reply);
    StepAhead(JobFor(c, p), d, pick, reply);
    EnterBefore(c, l.now, clock, p, d, DeployStep(JobFor(c, p), d, pick, reply));
  }

  /** e is closer to the return of the deployer than d. */
  predicate Ahead(d: Deploy, e: Deploy) {
    || e.Returned?
    || (d.Listing? && d.next < 3 && (e.Working? || (e.Listing? && e.next == d.next + 1)))
    || (d.Working? && e.Working? && |e.todo| < |d.todo|)
  }

  lemma StepAhead(job: Job, d: Deploy, pick: string, reply: Reply)
    requires Counted(job, d) && job.managed == Managed && (d.Working? ==> pick in d.todo)
    ensures Ahead(d, DeployStep(job, d, pick, reply))
  {
    hide WorkKey, Build;
  }

  lemma EnterBefore(c: Config, now: int, clock: int, p: Project, d: Deploy, e: Deploy)
    requires Counted(JobFor(c, p), e)
    requires Ahead(d, e)
    ensures DeployCounted(c, Enter(c, now, clock, p, e)) && Before(Enter(c, now, clock, p, e), Deploying(p, d))
  {
    hide WorkKey, Build;
  }

  lemma OtherSteps(c: Config, s: Server, n: string, l: Local, clock: int, pick: string)
    requires !l.phase.Deploying? && !l.phase.Done?
    ensures var m := ServedStep(c, s, n, l, clock, pick).1; DeployCounted(c, m.phase) && Before(m.phase, l.phase)
  {
    hide WorkKey, Build;
  }

  /** From any point of a reconciliation, some processing order carries it to its end. */
  lemma {:induction false} DriveEnds(c: Config, s: Server, n: string, l: Local, clock: int) returns (picks: seq<string>)
    requires DeployCounted(c, l.phase)
    ensures Drive(c, s, n, l, clock, picks).1.phase.Done?
    decreases PhaseRank(l.phase), DeployRank(l.phase).0, DeployRank(l.phase).1
  {
    if l.phase.Done? {
      picks := [];
    } else {
      var pick := "";
      if l.phase.Deploying? {
        pick := DeploySteps(c, s, n, l, clock);
      } else {
        OtherSteps(c, s, n, l, clock, pick);
      }
      var (t, m) := ServedStep(c, s, n, l, clock, pick);
      var rest := DriveEnds(c, t, n, m, clock);
      picks := [pick] + rest;
      assert picks[1..] == rest;
    }
  }
}
