/** internal/deployer/deployer.go as a machine: which call ReconcileObjects has pending, and how it
    goes on with the reply. Class Deployer (Deployer.dfy) is the code itself and follows this
    machine call by call. */
module Deployment {
  import opened Kubernetes
  import opened Names
  import opened ApiServer

  /** A worklist entry: the listed object, the desired object, or both. */
  datatype Item = Item(was: Option<Stored>, want: Option<Stored>)

  type Worklist = map<string, Item>

  /** The fields of a deployer and the arguments of one ReconcileObjects call. */
  datatype Job = Job(
    managed: seq<Kind>, ownerKey: string, digestKey: string, digest: Object -> string,
    objects: seq<Object>, owner: string)

  /** Where a call stands: about to list the next managed kind, working off the worklist in any
      order, or returned. */
  datatype Deploy =
    | Listing(next: nat, worklist: Worklist)
    | Working(worklist: Worklist, todo: set<string>, numUnready: nat)
    | Returned(ok: bool, err: Error, worklist: Worklist)

  /** kstatus: Current implies not terminating. */
  function ComputeStatus(o: Stored): Verdict {
    if o.terminating then Pending else o.verdict
  }

  datatype Objection = NotManaged | NamespaceSet | NamespaceMissing | InconsistentKind {
    function Text(): string {
      match this
      case NotManaged => "type is not managed"
      case NamespaceSet => "cluster-scope object must not have namespace set"
      case NamespaceMissing => "namespace-scope object requires namespace"
      case InconsistentKind => "inconsistent GroupVersionKind"
    }
  }

  /** The checks an object has to pass before it is joined with the listing. */
  function Complaint(job: Job, o: Object): Option<Objection> {
    if o.kind !in job.managed then Some(NotManaged)
    else if !o.kind.Namespaced() && o.namespace != "" then Some(NamespaceSet)
    else if o.kind.Namespaced() && o.namespace == "" then Some(NamespaceMissing)
    else if o.typeMeta.Some? && o.typeMeta.value != o.kind then Some(InconsistentKind)
    else None
  }

  /** The object as it will be sent: owner label and digest set last. */
  function Prepared(job: Job, o: Object): Stored {
    Stored(Key(o.kind, o.namespace, o.name),
           o.labels[job.ownerKey := job.owner],
           o.annotations[job.digestKey := job.digest(o.(typeMeta := Some(o.kind)))],
           o.body, 0, false, {}, Verdict.Current)
  }

  function Enlist(w: Worklist, o: Stored): Worklist {
    var x := WorkKey(o.key);
    w[x := Item(if x in w then w[x].was else None, Some(o))]
  }

  /** The objection that ends the call, if one of the first n desired objects raises one. */
  function FirstObjection(job: Job, n: nat): Option<Objection>
    requires n <= |job.objects|
  {
    if n == 0 then None
    else match FirstObjection(job, n - 1)
      case Some(e) => Some(e)
      case None => Complaint(job, job.objects[n - 1])
  }

  /** The worklist after the first n desired objects. */
  function Joined(job: Job, w: Worklist, n: nat): Worklist
    requires n <= |job.objects|
  {
    if n == 0 then w else Enlist(Joined(job, w, n - 1), Prepared(job, job.objects[n - 1]))
  }

  lemma WorkKeysDistinct(keys: set<Address>)
    ensures forall j, k | j in keys && k in keys && WorkKey(j) == WorkKey(k) :: j == k
  {
    forall j, k | j in keys && k in keys && WorkKey(j) == WorkKey(k) ensures j == k {
      WorkKeyInjective(j, k);
    }
  }

  /** The worklist after one more kind is listed. */
  function Merge(w: Worklist, items: map<Address, Stored>): Worklist {
    WorkKeysDistinct(items.Keys);
    w + map k | k in items :: WorkKey(k) := Item(Some(items[k]), None)
  }

  predicate Differs(job: Job, was: Stored, want: Stored) {
    Lookup(want.annotations, job.digestKey) != Lookup(was.annotations, job.digestKey)
  }

  /** The call an item asks for; None when only its readiness is computed. */
  function ItemCall(job: Job, item: Item): Option<Call> {
    match item
    case Item(None, None) => None
    case Item(None, Some(want)) => Some(Create(want))
    case Item(Some(was), None) => Some(Delete(was.key, was.resourceVersion))
    case Item(Some(was), Some(want)) =>
      if !Differs(job, was, want) then None
      else if want.key.kind.RoleBinding? then Some(Delete(was.key, was.resourceVersion))
      else Some(Update(want.(resourceVersion := was.resourceVersion)))
  }

  datatype Progress = Settled | Unsettled | Aborted(err: Error)

  /** What an item's reply means for the round. */
  function ItemProgress(job: Job, item: Item, reply: Reply): Progress {
    match ItemCall(job, item)
    case Some(Update(_)) =>
      if ErrorOf(reply) != NoError then Aborted(ErrorOf(reply)) else Unsettled
    case Some(_) =>
      if IgnoreNotFound(reply) != NoError then Aborted(IgnoreNotFound(reply)) else Unsettled
    case None =>
      if item.was.None? then Settled
      else match ComputeStatus(item.was.value)
        case Current => Settled
        case Pending => Unsettled
        case Broken(text) => Aborted(Error(text))
  }

  function Proceed(w: Worklist, todo: set<string>, numUnready: nat): Deploy {
    if todo == {} then Returned(numUnready == 0, NoError, w) else Working(w, todo, numUnready)
  }

  function AfterListing(job: Job, w: Worklist): Deploy {
    match FirstObjection(job, |job.objects|)
    case Some(e) => Returned(false, Error(e.Text()), w)
    case None => var v := Joined(job, w, |job.objects|); Proceed(v, v.Keys, 0)
  }

  function Start(job: Job): Deploy {
    if job.managed == [] then AfterListing(job, map[]) else Listing(0, map[])
  }

  /** The pending call; pick is the worklist key processed next. */
  function DeployCall(job: Job, d: Deploy, pick: string): Option<Call> {
    match d
    case Listing(next, _) =>
      if next < |job.managed| then Some(List(job.managed[next], job.ownerKey, job.owner)) else None
    case Working(w, todo, _) =>
      if pick in todo && pick in w then ItemCall(job, w[pick]) else None
    case Returned(_, _, _) => None
  }

  function DeployStep(job: Job, d: Deploy, pick: string, reply: Reply): Deploy {
    match d
    case Listing(next, w) =>
      if !reply.Listed? then Returned(false, ErrorOf(reply), w)
      else if next + 1 < |job.managed| then Listing(next + 1, Merge(w, reply.items))
      else AfterListing(job, Merge(w, reply.items))
    case Working(w, todo, n) =>
      if pick !in todo || pick !in w then d
      else (match ItemProgress(job, w[pick], reply)
            case Settled => Proceed(w, todo - {pick}, n)
            case Unsettled => Proceed(w, todo - {pick}, n + 1)
            case Aborted(e) => Returned(false, e, w))
    case Returned(_, _, _) => d
  }

  // ---- The verdict of a round ---------------------------------------------------------------

  /** The desired objects by worklist key. */
  function Desired(job: Job, n: nat): map<string, Stored>
    requires n <= |job.objects|
  {
    if n == 0 then map[]
    else var o := Prepared(job, job.objects[n - 1]); Desired(job, n - 1)[WorkKey(o.key) := o]
  }

  function AllDesired(job: Job): map<string, Stored> {
    Desired(job, |job.objects|)
  }

  ghost predicate OnlyListed(w: Worklist) {
    forall x | x in w :: w[x].was.Some? && w[x].want.None?
  }

  ghost predicate OuterJoin(w: Worklist, listed: Worklist, desired: map<string, Stored>) {
    && w.Keys == listed.Keys + desired.Keys
    && forall x | x in w ::
         w[x] == Item(if x in listed then listed[x].was else None,
                      if x in desired then Some(desired[x]) else None)
  }

  lemma EnlistOuterJoin(w: Worklist, listed: Worklist, desired: map<string, Stored>, o: Stored)
    requires OuterJoin(w, listed, desired) && OnlyListed(listed)
    ensures OuterJoin(Enlist(w, o), listed, desired[WorkKey(o.key) := o])
  {
  }

  /** The call is rejected iff some desired object has a complaint, with the first one's. */
  lemma {:induction false} ObjectionIsFirst(job: Job, n: nat) returns (i: nat)
    requires n <= |job.objects|
    ensures i <= n && (i < n <==> FirstObjection(job, n).Some?)
    ensures forall j | 0 <= j < i :: Complaint(job, job.objects[j]).None?
    ensures i < n ==> FirstObjection(job, n) == Complaint(job, job.objects[i])
  {
    i := n;
    if n > 0 {
      i := ObjectionIsFirst(job, n - 1);
      if FirstObjection(job, n - 1).None? && Complaint(job, job.objects[n - 1]).None? {
        i := n;
      }
    }
  }

  /** The worklist is the full outer join of what is listed and what is desired. */
  lemma {:induction false} JoinIsOuterJoin(job: Job, listed: Worklist, n: nat)
    requires n <= |job.objects| && OnlyListed(listed)
    ensures OuterJoin(Joined(job, listed, n), listed, Desired(job, n))
  {
    if n > 0 {
      JoinIsOuterJoin(job, listed, n - 1);
      EnlistOuterJoin(Joined(job, listed, n - 1), listed, Desired(job, n - 1), Prepared(job, job.objects[n - 1]));
    }
  }

  /** Two objects show the same digest annotation; none counts as the empty string. */
  predicate SameDigest(digestKey: string, a: Stored, b: Stored) {
    (if digestKey in a.annotations then a.annotations[digestKey] else "")
    == (if digestKey in b.annotations then b.annotations[digestKey] else "")
  }

  /** Current and on its way nowhere. */
  predicate InGoodOrder(o: Stored) {
    !o.terminating && o.verdict == Verdict.Current
  }

  /** Nothing is to be done about the item: it is there as desired, and ready. */
  predicate Matches(job: Job, item: Item) {
    && item.was.Some? && item.want.Some?
    && SameDigest(job.digestKey, item.was.value, item.want.value) && InGoodOrder(item.was.value)
  }

  predicate AllMatch(job: Job, w: Worklist) {
    forall x | x in w :: Matches(job, w[x])
  }

  /** The simple comparison: same keys, equal digests, everything ready. */
  ghost predicate InSync(job: Job, listed: Worklist, desired: map<string, Stored>) {
    && listed.Keys == desired.Keys
    && forall x | x in listed && listed[x].was.Some? ::
         SameDigest(job.digestKey, listed[x].was.value, desired[x]) && InGoodOrder(listed[x].was.value)
  }

  predicate NonEmptyItems(w: Worklist) {
    forall x | x in w :: w[x].was.Some? || w[x].want.Some?
  }

  /** The counter is zero exactly while everything processed so far matches. */
  ghost predicate Counted(job: Job, d: Deploy) {
    match d
    case Listing(next, w) => next < |job.managed| && OnlyListed(w)
    case Working(w, todo, n) =>
      && todo <= w.Keys && todo != {} && NonEmptyItems(w)
      && (n == 0 <==> forall x | x in w && x !in todo :: Matches(job, w[x]))
    case Returned(ok, err, w) => (ok ==> err == NoError) && (err == NoError ==> (ok <==> AllMatch(job, w)))
  }

  lemma MergeOnlyListed(w: Worklist, items: map<Address, Stored>)
    requires OnlyListed(w)
    ensures OnlyListed(Merge(w, items))
  {
  }

  lemma AfterListingCounted(job: Job, w: Worklist)
    requires OnlyListed(w)
    ensures Counted(job, AfterListing(job, w))
  {
    JoinIsOuterJoin(job, w, |job.objects|);
  }

  lemma MatchesSettles(job: Job, item: Item, reply: Reply)
    requires item.was.Some? || item.want.Some?
    ensures ItemProgress(job, item, reply).Settled? <==> Matches(job, item)
    ensures Matches(job, item) ==> ItemCall(job, item) == None
    ensures ItemProgress(job, item, reply).Aborted? ==> ItemProgress(job, item, reply).err != NoError
  {
  }

  /** A reply to a pending list call is a listing or an error. */
  predicate Fits(d: Deploy, reply: Reply) {
    d.Listing? ==> reply.Listed? || ErrorOf(reply) != NoError
  }

  lemma StepCounted(job: Job, d: Deploy, pick: string, reply: Reply)
    requires Counted(job, d) && Fits(d, reply)
    ensures Counted(job, DeployStep(job, d, pick, reply))
  {
    match d
    case Listing(next, w) =>
      if reply.Listed? {
        MergeOnlyListed(w, reply.items);
        AfterListingCounted(job, Merge(w, reply.items));
      }
    case Working(w, todo, n) =>
      if pick in todo {
        MatchesSettles(job, w[pick], reply);
        assert w.Keys - (todo - {pick}) == (w.Keys - todo) + {pick};
      }
    case Returned(_, _, _) =>
  }

  /** One event of a run: the key picked and the reply received. */
  datatype Event = Event(pick: string, reply: Reply)

  function Follow(job: Job, d: Deploy, events: seq<Event>): Deploy
    decreases |events|
  {
    if events == [] then d
    else Follow(job, DeployStep(job, d, events[0].pick, events[0].reply), events[1..])
  }

  /** A call that may change the cluster is issued somewhere along the run. */
  predicate Wrote(job: Job, d: Deploy, events: seq<Event>)
    decreases |events|
  {
    events != [] &&
    (|| (var c := DeployCall(job, d, events[0].pick); c.Some? && !c.value.List?)
     || Wrote(job, DeployStep(job, d, events[0].pick, events[0].reply), events[1..]))
  }

  ghost predicate KnownUnready(d: Deploy) {
    match d
    case Listing(_, _) => false
    case Working(_, _, n) => n > 0
    case Returned(ok, _, _) => !ok
  }

  lemma {:induction false} UnreadyForGood(job: Job, d: Deploy, events: seq<Event>)
    requires KnownUnready(d)
    ensures KnownUnready(Follow(job, d, events))
    decreases |events|
  {
    if events != [] {
      UnreadyForGood(job, DeployStep(job, d, events[0].pick, events[0].reply), events[1..]);
    }
  }

  lemma {:induction false} FollowCounted(job: Job, d: Deploy, events: seq<Event>)
    requires Counted(job, d) && !d.Listing?
    ensures Counted(job, Follow(job, d, events))
    ensures var e := Follow(job, d, events);
            e.worklist == d.worklist && (e.Returned? && e.ok ==> !Wrote(job, d, events))
    decreases |events|
  {
    if events != [] {
      var d1 := DeployStep(job, d, events[0].pick, events[0].reply);
      StepCounted(job, d, events[0].pick, events[0].reply);
      FollowCounted(job, d1, events[1..]);
      if DeployCall(job, d, events[0].pick).Some? {
        MatchesSettles(job, d.worklist[events[0].pick], events[0].reply);
        UnreadyForGood(job, d1, events[1..]);
      }
    }
  }

  /** ReconcileObjects refines the simple comparison: from any listing, for every processing order
      and every sequence of replies, a round that returns without error answers true iff listing and
      desired objects are in sync, and then it has issued no call that could change anything. */
  lemma RoundVerdict(job: Job, listed: Worklist, events: seq<Event>)
    requires OnlyListed(listed)
    ensures var d := Follow(job, AfterListing(job, listed), events);
            d.Returned? && d.err == NoError ==>
              && (d.ok <==> InSync(job, listed, AllDesired(job)))
              && (d.ok ==> !Wrote(job, AfterListing(job, listed), events))
  {
    var d0 := AfterListing(job, listed);
    AfterListingCounted(job, listed);
    FollowCounted(job, d0, events);
    JoinIsOuterJoin(job, listed, |job.objects|);
    var d := Follow(job, d0, events);
    if FirstObjection(job, |job.objects|).None? {
      SyncIsAllMatch(job, d.worklist, listed);
    } else {
      ReturnedStays(job, d0, events);
    }
  }

  lemma {:induction false} ReturnedStays(job: Job, d: Deploy, events: seq<Event>)
    requires d.Returned?
    ensures Follow(job, d, events) == d
    decreases |events|
  {
    if events != [] {
      ReturnedStays(job, d, events[1..]);
    }
  }

  lemma SyncIsAllMatch(job: Job, w: Worklist, listed: Worklist)
    requires OnlyListed(listed) && OuterJoin(w, listed, AllDesired(job))
    ensures AllMatch(job, w) <==> InSync(job, listed, AllDesired(job))
  {
    var desired := AllDesired(job);
    if AllMatch(job, w) {
      forall x | x in w ensures x in listed && x in desired {
        assert Matches(job, w[x]);
      }
      forall x | x in listed ensures Matches(job, w[x]) {
        assert x in w;
      }
    }
    if InSync(job, listed, desired) {
      forall x | x in w ensures Matches(job, w[x]) {
      }
    }
  }
}
