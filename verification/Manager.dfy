/** The manager calling Reconcile again and again: what the code as it is brings about, by way of the
    lifecycle results. */
module Manager {
  import opened Kubernetes
  import opened ApiServer
  import opened Controller
  import opened Runs
  import opened Client
  import opened Solo
  import opened Lifecycle
  import opened Company
  import opened Reconciler

  /** Having come closer by more visits than k says no less than having come closer by k. */
  lemma ApproachesLess(c: Config, n: string, s: Server, t: Server, more: nat, k: nat)
    requires Approaches(c, n, s, t, more) && k <= more
    ensures Approaches(c, n, s, t, k)
  {
  }

  /** One more visit in company. */
  lemma ApproachesMore(c: Config, n: string, s: Server, sys: System, next: System, k: nat)
    requires Inv(c, sys) && !Running(sys, n) && !Running(next, n)
    requires Approaches(c, n, s, sys.server, k) && VisitsAmong(c, n, sys, next)
    ensures Approaches(c, n, s, next.server, k + 1)
  {
    hide Among, Next, Inv, Approaches, OnWay;
    var steps :| Run(c, sys, steps) == next && Completed(c, sys, steps, n) >= 1
                 && forall step | step in steps :: Among(c, step, n, true);
    var done := k + Completed(c, sys, steps, n);
    FollowingRun(c, sys, steps, n, s, k);
    assert Following(c, n, s, next, done);
    ApproachesLess(c, n, s, next.server, done, k + 1);
  }

  lemma ApproachesNone(c: Config, n: string, s: Server)
    requires Live(c, s, n)
    ensures Approaches(c, n, s, s, 0)
  {
    hide RoundsLeft;
  }

  lemma ApproachesReady(c: Config, n: string, s: Server, t: Server, k: nat)
    requires Approaches(c, n, s, t, k) && k >= 5
    ensures n in s.projects
    ensures n in t.projects && IsReady(t.projects[n])
  {
    hide RoundsLeft;
    LeftAtMostFour(c, s, n);
  }

  /** As long as the others leave the project alone and its calls do not fail, whatever else goes on, each
      call of Reconcile brings a live project one step closer, and five make it Ready for its generation;
      and it stays so. */
  method Requeue(reconciler: ProjectReconciler, cluster: Cluster, name: string, times: nat)
    requires reconciler.Valid() && cluster.config == reconciler.options
    requires cluster.Valid() && !Running(cluster.system, name)
    requires Civil(cluster.config, name, cluster.script) && Live(cluster.config, cluster.system.server, name)
    modifies cluster`system, cluster`clock, cluster`script, reconciler
    ensures cluster.Valid() && !Running(cluster.system, name) && Civil(cluster.config, name, cluster.script)
    ensures Approaches(cluster.config, name, old(cluster.system.server), cluster.system.server, times)
    ensures times >= 5 ==> IsReady(cluster.system.server.projects[name])
  {
    hide Approaches, Live, Inv;
    ghost var s := cluster.system.server;
    ApproachesNone(cluster.config, name, s);
    for i := 0 to times
      invariant cluster.Valid() && !Running(cluster.system, name) && Civil(cluster.config, name, cluster.script)
      invariant Approaches(cluster.config, name, s, cluster.system.server, i)
    {
      ghost var before := cluster.system;
      var _, _, _ := reconciler.Reconcile(cluster, name);
      ApproachesMore(cluster.config, name, s, before, cluster.system, i);
    }
    if times >= 5 {
      ApproachesReady(cluster.config, name, s, cluster.system.server, times);
    }
  }

  /** With nobody else to act, one call of Reconcile (two if the project was never seen) deletes everything a
      deleted project owns that nobody else holds: from then on it owns only terminating namespaces, or
      it is gone and owns nothing. */
  method RequeueDeleted(reconciler: ProjectReconciler, cluster: Cluster, name: string, times: nat)
    requires reconciler.Valid() && cluster.config == reconciler.options
    requires cluster.Valid() && !Running(cluster.system, name) && cluster.script == []
    requires Leaving(cluster.system.server, name)
    requires Unblocked(cluster.system.server, cluster.system.server.projects[name].uid)
    modifies cluster`system, cluster`clock, cluster`script, reconciler
    ensures cluster.Valid() && !Running(cluster.system, name)
    ensures Departing(cluster.system.server, name, old(cluster.system.server.projects[name].uid), times > 0,
                      times >= if old(Seen(cluster.system.server, name)) then 1 else 2)
  {
    ghost var u := cluster.system.server.projects[name].uid;
    ghost var seen := Seen(cluster.system.server, name);
    for i := 0 to times
      invariant cluster.Valid() && !Running(cluster.system, name) && cluster.script == []
      invariant Departing(cluster.system.server, name, u, i > 0 || seen, i >= if seen then 1 else 2)
    {
      ghost var before, clock := cluster.system.server, cluster.clock;
      var _, _, _ := reconciler.Reconcile(cluster, name);
      DepartingMore(cluster.config, name, u, before, cluster.system.server, clock, i > 0 || seen);
    }
  }

  lemma DepartingMore(c: Config, n: string, u: string, s: Server, t: Server, clock: int, seen: bool)
    requires Departing(s, n, u, seen, false) && Visits(c, n, clock, s, t)
    ensures Departing(t, n, u, true, seen)
  {
    var picks :| Completes(c, s, n, Visit(clock, clock, picks)) && After(c, s, n, Visit(clock, clock, picks)) == t;
    DepartingStep(c, s, n, u, seen, Visit(clock, clock, picks));
  }

  /** Once nothing owned is left, the next call lets the project go. */
  method RequeueCollected(reconciler: ProjectReconciler, cluster: Cluster, name: string, ghost u: string)
    requires reconciler.Valid() && cluster.config == reconciler.options
    requires cluster.Valid() && !Running(cluster.system, name) && cluster.script == []
    requires Departing(cluster.system.server, name, u, true, false) && Unowned(cluster.system.server, u)
    modifies cluster`system, cluster`clock, cluster`script, reconciler
    ensures cluster.Valid() && !Running(cluster.system, name)
    ensures name !in cluster.system.server.projects && Unowned(cluster.system.server, u)
  {
    ghost var s, clock := cluster.system.server, cluster.clock;
    var _, _, _ := reconciler.Reconcile(cluster, name);
    LettingGo(cluster.config, name, u, s, cluster.system.server, clock);
  }

  lemma LettingGo(c: Config, n: string, u: string, s: Server, t: Server, clock: int)
    requires Departing(s, n, u, true, false) && Unowned(s, u) && Visits(c, n, clock, s, t)
    ensures n !in t.projects && Unowned(t, u)
  {
    var picks :| Completes(c, s, n, Visit(clock, clock, picks)) && After(c, s, n, Visit(clock, clock, picks)) == t;
    if n in s.projects {
      LeavingStep(c, s, n, Visit(clock, clock, picks));
    } else {
      DriveOne(c, s, n, Local(clock, Fetching), clock, picks);
    }
  }
}
