/** The client the operator's code talks to the API server through. Around every call, others may do
    anything the system allows them, and the call may fail or be lost. */
module Client {
  import opened Kubernetes
  import opened ApiServer
  import opened Controller
  import opened Runs
  import opened Safety
  import opened Guarantees
  import opened Solo
  import opened Company

  /** What others do before the operator's next call, when the call returns, and its fate. */
  datatype Interlude = Interlude(before: seq<Step>, clock: int, fate: Fate)

  predicate Concerns(step: Step, n: string) {
    match step
    case Environment(_) => false
    case Begin(m, _) => m == n
    case Advance(m, _, _, _) => m == n
  }

  function Others(steps: seq<Step>, n: string): seq<Step> {
    if steps == [] then []
    else (if Concerns(steps[0], n) then [] else [steps[0]]) + Others(steps[1..], n)
  }

  ghost predicate Reaches(c: Config, sys: System, next: System) {
    exists steps :: Run(c, sys, steps) == next
  }

  lemma {:induction false} RunOthers(c: Config, sys: System, steps: seq<Step>, n: string)
    requires n in sys.active
    ensures var next := Run(c, sys, Others(steps, n)); n in next.active && next.active[n] == sys.active[n]
    decreases |steps|
  {
    if steps != [] {
      if Concerns(steps[0], n) {
        RunOthers(c, sys, steps[1..], n);
        assert Others(steps, n) == Others(steps[1..], n);
      } else {
        RunOthers(c, Next(c, sys, steps[0]), steps[1..], n);
        assert Others(steps, n)[1..] == Others(steps[1..], n);
      }
    }
  }

  lemma {:induction false} RunConcat(c: Config, sys: System, first: seq<Step>, second: seq<Step>)
    ensures Run(c, sys, first + second) == Run(c, Run(c, sys, first), second)
    decreases |first|
  {
    if first == [] {
      assert first + second == second;
    } else {
      assert (first + second)[1..] == first[1..] + second;
      RunConcat(c, Next(c, sys, first[0]), first[1..], second);
    }
  }

  lemma ReachesRun(c: Config, sys: System, mid: System, steps: seq<Step>)
    requires Reaches(c, sys, mid)
    ensures Reaches(c, sys, Run(c, mid, steps))
  {
    var first :| Run(c, sys, first) == mid;
    RunConcat(c, sys, first, steps);
  }

  lemma ReachesTrans(c: Config, sys: System, mid: System, next: System)
    requires Reaches(c, sys, mid) && Reaches(c, mid, next)
    ensures Reaches(c, sys, next)
  {
    var steps :| Run(c, mid, steps) == next;
    ReachesRun(c, sys, mid, steps);
  }

  lemma ReachesNext(c: Config, sys: System, mid: System, step: Step)
    requires Reaches(c, sys, mid)
    ensures Reaches(c, sys, Next(c, mid, step))
  {
    ReachesRun(c, sys, mid, [step]);
    assert Run(c, mid, [step]) == Run(c, Next(c, mid, step), []);
  }

  /** What the operator's code makes of a reachable system is reachable. */
  lemma ReachesReachable(c: Config, sys: System, next: System)
    requires Reachable(c, sys) && Reaches(c, sys, next)
    ensures Reachable(c, next)
  {
    var start, steps :| Initial(c, start) && Run(c, start, steps) == sys;
    var more :| Run(c, sys, more) == next;
    RunConcat(c, start, steps, more);
  }

  /** The state of a cluster object. */
  datatype World = World(system: System, clock: int, script: seq<Interlude>)

  /** Undisturbed, the reconciliation of n got from sys to next. */
  ghost predicate Drives(c: Config, n: string, clock: int, sys: System, next: System) {
    && n in sys.active && n in next.active
    && exists picks :: (next.server, next.active[n]) == Drive(c, sys.server, n, sys.active[n], clock, picks)
  }

  /** Whatever is to come leaves n alone, and no call fails. */
  ghost predicate Civil(c: Config, n: string, script: seq<Interlude>) {
    forall i | i in script :: i.fate.Served? && forall step | step in i.before :: Aloof(c, step, n)
  }

  /** From sys to next, others left n alone and no call of its reconciliation failed. */
  ghost predicate ReachesAmong(c: Config, n: string, sys: System, next: System) {
    exists steps :: Run(c, sys, steps) == next && forall step | step in steps :: Among(c, step, n, true)
  }

  lemma AmongTrans(c: Config, n: string, sys: System, mid: System, next: System)
    requires ReachesAmong(c, n, sys, mid) && ReachesAmong(c, n, mid, next)
    ensures ReachesAmong(c, n, sys, next)
  {
    hide Among, Next;
    var first :| Run(c, sys, first) == mid && forall step | step in first :: Among(c, step, n, true);
    var second :| Run(c, mid, second) == next && forall step | step in second :: Among(c, step, n, true);
    RunConcat(c, sys, first, second);
  }

  lemma {:induction false} OthersIn(steps: seq<Step>, n: string)
    ensures forall step | step in Others(steps, n) :: step in steps
  {
    if steps != [] {
      OthersIn(steps[1..], n);
    }
  }

  lemma PerformAmong(c: Config, n: string, sys: System, turn: Interlude, clock: int, pick: string)
    requires Civil(c, n, [turn])
    ensures var mid := Run(c, sys, Others(turn.before, n));
            ReachesAmong(c, n, sys, Next(c, mid, Advance(n, clock, pick, turn.fate)))
  {
    hide Next;
    var before, step := Others(turn.before, n), Advance(n, clock, pick, turn.fate);
    assert turn in [turn];
    OthersIn(turn.before, n);
    RunConcat(c, sys, before, [step]);
    var mid := Run(c, sys, before);
    assert Run(c, mid, [step]) == Run(c, Next(c, mid, step), []);
    assert forall x | x in before + [step] :: Among(c, x, n, true);
  }

  /** A completed visit among others who leave n alone. */
  ghost predicate VisitsAmong(c: Config, n: string, sys: System, next: System) {
    exists steps ::
      && Run(c, sys, steps) == next && Completed(c, sys, steps, n) >= 1
      && forall step | step in steps :: Among(c, step, n, true)
  }

  lemma {:induction false} CompletesOne(c: Config, sys: System, steps: seq<Step>, n: string)
    requires Running(sys, n) && !Running(Run(c, sys, steps), n)
    ensures Completed(c, sys, steps, n) >= 1
    decreases |steps|
  {
    hide Next;
    if steps != [] && Running(Next(c, sys, steps[0]), n) {
      CompletesOne(c, Next(c, sys, steps[0]), steps[1..], n);
    }
  }

  lemma BegunAmong(c: Config, n: string, sys: System, now: int, next: System)
    requires var begun := Next(c, sys, Step.Begin(n, now));
             Running(begun, n) && ReachesAmong(c, n, begun, next) && !Running(next, n)
    ensures VisitsAmong(c, n, sys, next)
  {
    hide Next;
    var begun := Next(c, sys, Step.Begin(n, now));
    var steps :| Run(c, begun, steps) == next && forall step | step in steps :: Among(c, step, n, true);
    CompletesOne(c, begun, steps, n);
    var all := [Step.Begin(n, now)] + steps;
    assert all[1..] == steps;
    assert forall step | step in all :: Among(c, step, n, true);
    assert Run(c, sys, all) == next && Completed(c, sys, all, n) >= 1;
  }

  /** What calls on behalf of n make of a cluster: a run of the system; if nobody else is to act, a drive
      of n's reconciliation; and if the others leave n alone, so has everybody else in that run. */
  ghost predicate Goes(c: Config, n: string, before: World, after: World) {
    && Reaches(c, before.system, after.system)
    && (before.script == [] ==>
          after.script == [] && after.clock == before.clock && Drives(c, n, after.clock, before.system, after.system))
    && (Civil(c, n, before.script) ==>
          Civil(c, n, after.script) && ReachesAmong(c, n, before.system, after.system))
  }

  lemma GoesTrans(c: Config, n: string, before: World, mid: World, after: World)
    requires Goes(c, n, before, mid) && Goes(c, n, mid, after)
    ensures Goes(c, n, before, after)
  {
    hide Among, Aloof, Next, ServedStep;
    ReachesTrans(c, before.system, mid.system, after.system);
    if Civil(c, n, before.script) {
      AmongTrans(c, n, before.system, mid.system, after.system);
    }
    if before.script == [] {
      var s, t := before.system, mid.system;
      var first :| (t.server, t.active[n]) == Drive(c, s.server, n, s.active[n], after.clock, first);
      var second :| (after.system.server, after.system.active[n])
        == Drive(c, t.server, n, t.active[n], after.clock, second);
      DriveConcat(c, s.server, n, s.active[n], after.clock, first, second);
    }
  }

  lemma GoesNowhere(c: Config, n: string, w: World)
    requires n in w.system.active
    ensures Goes(c, n, w, w)
  {
    assert Run(c, w.system, []) == w.system;
    assert Drive(c, w.system.server, n, w.system.active[n], w.clock, []) == (w.system.server, w.system.active[n]);
  }

  lemma OneStepDrives(c: Config, n: string, clock: int, sys: System, pick: string)
    requires Running(sys, n)
    ensures Drives(c, n, clock, sys, Next(c, sys, Advance(n, clock, pick, Served)))
  {
    var next := Next(c, sys, Advance(n, clock, pick, Served));
    var (t, m) := ServedStep(c, sys.server, n, sys.active[n], clock, pick);
    assert [pick][1..] == [] && Drive(c, t, n, m, clock, []) == (t, m);
    assert (next.server, next.active[n]) == Drive(c, sys.server, n, sys.active[n], clock, [pick]);
  }

  /** One completed visit to n, during which the clock stands still, takes the server from s to t. */
  ghost predicate Visits(c: Config, n: string, clock: int, s: Server, t: Server) {
    exists picks :: Completes(c, s, n, Visit(clock, clock, picks)) && After(c, s, n, Visit(clock, clock, picks)) == t
  }

  lemma DriveIsVisit(c: Config, n: string, clock: int, begun: System, next: System)
    requires Drives(c, n, clock, begun, next) && begun.active[n] == Local(clock, Fetching) && next.active[n].phase.Done?
    ensures Visits(c, n, clock, begun.server, next.server)
  {
    var picks :| (next.server, next.active[n]) == Drive(c, begun.server, n, begun.active[n], clock, picks);
    assert Completes(c, begun.server, n, Visit(clock, clock, picks));
  }

  class Cluster {
    const config: Config
    var system: System
    var clock: int
    var script: seq<Interlude>

    ghost predicate Valid()
      reads this
    {
      Inv(config, system)
    }

    ghost function State(): World
      reads this
    {
      World(system, clock, script)
    }

    /** Where the reconciliation of n stands. */
    ghost predicate At(n: string, l: Local)
      reads this
    {
      n in system.active && system.active[n] == l
    }

    constructor (config: Config, system: System, clock: int, script: seq<Interlude>)
      requires Inv(config, system)
      ensures Valid() && this.config == config && this.system == system && this.clock == clock && this.script == script
    {
      this.config, this.system, this.clock, this.script := config, system, clock, script;
    }

    /** The manager starts a reconciliation of n. */
    method Begin(n: string) returns (now: int)
      requires Valid() && !Running(system, n)
      modifies this`system
      ensures Valid() && now == clock && At(n, Local(now, Fetching)) && Reaches(config, old(system), system)
      ensures system.server == old(system.server) && system == Next(config, old(system), Step.Begin(n, now))
    {
      now := clock;
      assert Run(config, system, []) == system;
      ReachesNext(config, system, system, Step.Begin(n, now));
      NextKeeps(config, system, Step.Begin(n, now));
      system := Next(config, system, Step.Begin(n, now));
    }

    /** With nobody else to act, the next call finds the system as it is and is served. */
    method NextInterlude() returns (turn: Interlude)
      modifies this`clock, this`script
      ensures clock == turn.clock
      ensures old(script) == [] ==> clock == old(clock) && script == [] && turn == Interlude([], clock, Served)
      ensures old(script) != [] ==> turn == old(script)[0] && script == old(script)[1..]
    {
      turn := if script == [] then Interlude([], clock, Served) else script[0];
      script := if script == [] then [] else script[1..];
      clock := turn.clock;
    }

    /** The reconciliation of n issues the call it has pending; for a worklist item that needs no call
        (call is None), it only looks at the listed object. */
    method Perform(n: string, pick: string, call: Option<Call>) returns (reply: Reply)
      requires Valid() && Running(system, n)
      requires PendingCall(config, n, system.active[n], pick) == call
      modifies this`system, this`clock, this`script
      ensures Valid() && At(n, Resume(config, old(system.active[n]), clock, pick, reply))
      ensures Answers(call, reply) && Goes(config, n, old(State()), State())
      ensures system.active[n].phase.Done? && Quiet(system.active[n].phase.result, system.active[n].phase.err)
              ==> n !in system.server.projects
    {
      var turn := NextInterlude();
      var step := Advance(n, clock, pick, turn.fate);

      assert Run(config, system, []) == system;
      ReachesRun(config, system, system, Others(turn.before, n));
      RunOthers(config, system, turn.before, n);
      RunKeeps(config, system, Others(turn.before, n));
      system := Run(config, system, Others(turn.before, n));

      var exchange := Exchange(config, system.server, n, system.active[n], pick, turn.fate);
      reply := exchange.1;
      if call.Some? {
        ServeAnswers(system.server, call.value, turn.fate);
      }
      ReachesNext(config, old(system), system, step);
      NextKeeps(config, system, step);
      QuietMeansGone(config, system, n, clock, pick, turn.fate);
      if old(script) == [] {
        OneStepDrives(config, n, clock, system, pick);
      }
      if Civil(config, n, old(script)) {
        assert Civil(config, n, [turn]) && Civil(config, n, script);
        PerformAmong(config, n, old(system), turn, clock, pick);
      }
      system := Next(config, system, step);
    }
  }
}
