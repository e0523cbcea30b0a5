/** How a deployer round ends, in the terms of internal/deployer/deployer.go itself: what stops it, with
    which error, and that otherwise nothing is skipped. */
module Rounds {
  import opened Kubernetes
  import opened ApiServer
  import opened Deployment

  /** The complaint about a desired object, the checks taken in their order; none if it passes. */
  function Rejection(job: Job, o: Object): Error {
    if o.kind !in job.managed then Error("type is not managed")
    else if o.kind != RoleBinding && o.namespace != "" then Error("cluster-scope object must not have namespace set")
    else if o.kind == RoleBinding && o.namespace == "" then Error("namespace-scope object requires namespace")
    else if o.typeMeta != None && o.typeMeta != Some(o.kind) then Error("inconsistent GroupVersionKind")
    else NoError
  }

  /** Some desired object is rejected, and the first one that is with e. */
  ghost predicate RejectedWith(job: Job, e: Error) {
    exists i ::
      && 0 <= i < |job.objects| && Rejection(job, job.objects[i]) == e && e != NoError
      && forall j | 0 <= j < i :: Rejection(job, job.objects[j]) == NoError
  }

  /** The error that stops the round at an item: a create or delete that fails otherwise than with not
      found, an update that fails at all, or a broken verdict on an object that is in step. */
  function Failure(job: Job, item: Item, reply: Reply): Error {
    match item
    case Item(Some(was), Some(want)) =>
      if SameDigest(job.digestKey, was, want) then
        if !was.terminating && was.verdict.Broken? then Error(was.verdict.text) else NoError
      else if reply.Failed? then Error(reply.text)
      else if reply.NotFound? && want.key.kind != RoleBinding then Error("not found")
      else NoError
    case _ => if reply.Failed? then Error(reply.text) else NoError
  }

  /** This event stops the round at d, with the error e. */
  ghost predicate Stops(job: Job, d: Deploy, event: Event, e: Error) {
    match d
    case Listing(next, w) =>
      if event.reply.Listed? then next + 1 == |job.managed| && RejectedWith(job, e)
      else e == Error(if event.reply.Failed? then event.reply.text else "not found")
    case Working(w, todo, n) =>
      event.pick in todo && event.pick in w && e != NoError && Failure(job, w[event.pick], event.reply) == e
    case Returned(_, _, _) => false
  }

  /** Every list call on the way is answered by a listing or an error. */
  ghost predicate Fitting(job: Job, d: Deploy, events: seq<Event>) {
    forall i | 0 <= i < |events| :: Fits(Follow(job, d, events[..i]), events[i].reply)
  }

  ghost predicate Ends(job: Job, d: Deploy, e: Error) {
    d.Returned? && d.err == e
  }

  lemma ComplaintIsRejection(job: Job, o: Object)
    ensures Rejection(job, o) == match Complaint(job, o) case None => NoError case Some(x) => Error(x.Text())
  {
  }

  lemma FirstRejected(job: Job, e: Error)
    requires e != NoError
    ensures RejectedWith(job, e) <==>
            match FirstObjection(job, |job.objects|) case None => false case Some(x) => e == Error(x.Text())
  {
    var i := ObjectionIsFirst(job, |job.objects|);
    forall j | 0 <= j < |job.objects| {
      ComplaintIsRejection(job, job.objects[j]);
    }
  }

  lemma FailureAborts(job: Job, item: Item, reply: Reply)
    requires item.was.Some? || item.want.Some?
    ensures var p := ItemProgress(job, item, reply);
            if p.Aborted? then Failure(job, item, reply) == p.err != NoError else Failure(job, item, reply) == NoError
  {
  }

  /** One event stops the round iff it is one of those told. */
  lemma StepStops(job: Job, d: Deploy, event: Event, e: Error)
    requires Counted(job, d) && !d.Returned? && Fits(d, event.reply) && e != NoError
    ensures Ends(job, DeployStep(job, d, event.pick, event.reply), e) <==> Stops(job, d, event, e)
  {
    match d
    case Listing(next, w) => FirstRejected(job, e);
    case Working(w, todo, n) =>
      if event.pick in todo {
        FailureAborts(job, w[event.pick], event.reply);
      }
  }

  /** The way after the first event. */
  lemma FollowRest(job: Job, d: Deploy, events: seq<Event>)
    requires events != []
    ensures var d1 := DeployStep(job, d, events[0].pick, events[0].reply);
            forall i | 0 < i <= |events| :: Follow(job, d, events[..i]) == Follow(job, d1, events[1..][..i - 1])
  {
    forall i | 0 < i <= |events| ensures events[..i][1..] == events[1..][..i - 1] {
    }
  }

  lemma FittingRest(job: Job, d: Deploy, events: seq<Event>)
    requires events != [] && Fitting(job, d, events)
    ensures Fits(d, events[0].reply)
    ensures Fitting(job, DeployStep(job, d, events[0].pick, events[0].reply), events[1..])
  {
    FollowRest(job, d, events);
    assert Follow(job, d, events[..0]) == d;
    forall i | 0 <= i < |events| - 1
      ensures Fits(Follow(job, DeployStep(job, d, events[0].pick, events[0].reply), events[1..][..i]),
                   events[1..][i].reply)
    {
      assert Fits(Follow(job, d, events[..i + 1]), events[i + 1].reply);
    }
  }

  /** Some event on the way stops the round with e. */
  ghost predicate StopsOnTheWay(job: Job, d: Deploy, events: seq<Event>, e: Error) {
    exists i :: 0 <= i < |events| && Stops(job, Follow(job, d, events[..i]), events[i], e)
  }

  lemma {:induction false} EndsIffStopped(job: Job, d: Deploy, events: seq<Event>, e: Error)
    requires Counted(job, d) && !d.Returned? && Fitting(job, d, events) && e != NoError
    ensures Ends(job, Follow(job, d, events), e) <==> StopsOnTheWay(job, d, events, e)
    decreases |events|
  {
    if events != [] {
      var d1, rest := DeployStep(job, d, events[0].pick, events[0].reply), events[1..];
      FollowRest(job, d, events);
      FittingRest(job, d, events);
      StepCounted(job, d, events[0].pick, events[0].reply);
      StepStops(job, d, events[0], e);
      assert Follow(job, d, events[..0]) == d;
      if d1.Returned? {
        ReturnedStays(job, d1, rest);
        forall i | 0 < i < |events| ensures !Stops(job, Follow(job, d, events[..i]), events[i], e) {
          ReturnedStays(job, d1, rest[..i - 1]);
        }
      } else {
        EndsIffStopped(job, d1, rest, e);
        forall i | 0 < i < |events|
          ensures Stops(job, Follow(job, d, events[..i]), events[i], e)
                  <==> Stops(job, Follow(job, d1, rest[..i - 1]), rest[i - 1], e)
        {
        }
      }
    }
  }

  /** A round ends with the error e iff a desired object is rejected with e after the listings (at once, if
      no kind is managed), a list call fails with e, a create or delete is answered with e and e is not
      that the object was not found, an update is answered with e, or an object in step is broken with e;
      for every processing order and every sequence of replies. */
  lemma RoundFailsIff(job: Job, events: seq<Event>, e: Error)
    requires Fitting(job, Start(job), events) && e != NoError
    ensures Ends(job, Follow(job, Start(job), events), e) <==>
            (job.managed == [] && RejectedWith(job, e)) || StopsOnTheWay(job, Start(job), events, e)
  {
    var d := Start(job);
    AfterListingCounted(job, map[]);
    if d.Returned? {
      FirstRejected(job, e);
      ReturnedStays(job, d, events);
      forall i | 0 <= i < |events| ensures !Stops(job, Follow(job, d, events[..i]), events[i], e) {
        ReturnedStays(job, d, events[..i]);
      }
    } else {
      if job.managed == [] {
        FirstRejected(job, e);
      }
      EndsIffStopped(job, d, events, e);
    }
  }

  /** At this event the item x is worked off. */
  predicate WorksOff(d: Deploy, event: Event, x: string) {
    d.Working? && x in d.todo && x in d.worklist && event.pick == x
  }

  ghost predicate WorkedOff(job: Job, d: Deploy, events: seq<Event>, x: string) {
    exists i :: 0 <= i < |events| && WorksOff(Follow(job, d, events[..i]), events[i], x)
  }

  lemma {:induction false} NothingSkipped(job: Job, d: Deploy, events: seq<Event>, x: string)
    requires Counted(job, d) && !d.Returned? && Fitting(job, d, events) && (d.Working? ==> x in d.todo)
    requires Ends(job, Follow(job, d, events), NoError) && x in Follow(job, d, events).worklist
    ensures WorkedOff(job, d, events, x)
    decreases |events|
  {
    hide DeployStep, Counted;
    var d1, rest := DeployStep(job, d, events[0].pick, events[0].reply), events[1..];
    FollowRest(job, d, events);
    FittingRest(job, d, events);
    StepCounted(job, d, events[0].pick, events[0].reply);
    assert Follow(job, d, events[..0]) == d;
    if WorksOff(d, events[0], x) {
      assert WorksOff(Follow(job, d, events[..0]), events[0], x);
    } else {
      StillToDo(job, d, events[0], x);
      if d1.Returned? {
        ReturnedStays(job, d1, rest);
      } else {
        if d1.Working? {
          FollowCounted(job, d1, rest);
        }
        NothingSkipped(job, d1, rest, x);
        var i :| 0 <= i < |rest| && WorksOff(Follow(job, d1, rest[..i]), rest[i], x);
        assert WorksOff(Follow(job, d, events[..i + 1]), events[i + 1], x);
      }
    }
  }

  /** What an event does not work off stays to be done, unless the round ends with an error. */
  lemma StillToDo(job: Job, d: Deploy, event: Event, x: string)
    requires Counted(job, d) && !d.Returned? && Fits(d, event.reply)
    requires (d.Working? ==> x in d.todo) && !WorksOff(d, event, x)
    ensures var d1 := DeployStep(job, d, event.pick, event.reply);
            match d1
            case Listing(_, _) => true
            case Working(w, todo, _) => x in w ==> x in todo
            case Returned(_, err, w) => err == NoError ==> x !in w
  {
    if d.Working? && event.pick in d.todo {
      MatchesSettles(job, d.worklist[event.pick], event.reply);
    }
  }

  /** In every other round that ends, each item of the worklist has been worked off. */
  lemma EverythingWorkedOff(job: Job, events: seq<Event>, x: string)
    requires Fitting(job, Start(job), events)
    requires Ends(job, Follow(job, Start(job), events), NoError) && x in Follow(job, Start(job), events).worklist
    ensures WorkedOff(job, Start(job), events, x)
  {
    var d := Start(job);
    AfterListingCounted(job, map[]);
    if d.Returned? {
      ReturnedStays(job, d, events);
    } else {
      NothingSkipped(job, d, events, x);
    }
  }
}
