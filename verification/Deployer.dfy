/** internal/deployer/deployer.go, as it is: listing, joining and processing the worklist. */
module Deployers {
  import opened Kubernetes
  import opened Names
  import opened ApiServer
  import opened Deployment
  import opened Rounds
  import opened Compilation
  import opened Controller
  import opened Runs
  import opened Client

  /** m is w overwritten by items, entered under the keys f gives them. */
  ghost predicate Overwritten(f: Address -> string, w: Worklist, items: map<Address, Stored>, m: Worklist) {
    && (forall j | j in items :: f(j) in m && m[f(j)] == Item(Some(items[j]), None))
    && (forall x | x in w :: x in m)
    && (forall x | x in m :: (x in w && m[x] == w[x]) || exists j :: j in items && f(j) == x)
  }

  lemma OverwriteOne(f: Address -> string, w: Worklist, items: map<Address, Stored>, m: Worklist, k: Address, o: Stored)
    requires Overwritten(f, w, items, m) && forall j | j in items :: f(j) != f(k)
    ensures Overwritten(f, w, items[k := o], m[f(k) := Item(Some(o), None)])
  {
    var more, m' := items[k := o], m[f(k) := Item(Some(o), None)];
    forall x | x in m'
      ensures (x in w && m'[x] == w[x]) || exists j :: j in more && f(j) == x
    {
      if x == f(k) {
        assert k in more;
      } else if j :| j in items && f(j) == x {
        assert j in more;
      }
    }
  }

  /** m is w, except that the listed objects stand under their worklist keys, so far without a desired
      object. */
  ghost predicate Entered(w: Worklist, items: map<Address, Stored>, m: Worklist) {
    && (forall j | j in items :: WorkKey(j) in m && m[WorkKey(j)] == Item(Some(items[j]), None))
    && (forall x | x in w :: x in m)
    && (forall x | x in m :: (x in w && m[x] == w[x]) || exists j :: j in items && WorkKey(j) == x)
  }

  lemma OverwrittenIsMerge(f: Address -> string, w: Worklist, items: map<Address, Stored>, m: Worklist)
    requires Overwritten(f, w, items, m) && forall k: Address :: f(k) == WorkKey(k)
    ensures m == Merge(w, items)
  {
    hide WorkKey, Build;
    WorkKeysDistinct(items.Keys);
    var merged := Merge(w, items);
    forall x ensures x in m <==> x in merged {
      if j :| j in items && f(j) == x {
        assert WorkKey(j) in merged;
      }
    }
    forall x | x in m ensures m[x] == merged[x] {
      if j :| j in items && f(j) == x {
        assert merged[WorkKey(j)] == Item(Some(items[j]), None);
      }
    }
  }

  lemma OverwrittenIsEntered(f: Address -> string, w: Worklist, items: map<Address, Stored>, m: Worklist)
    requires Overwritten(f, w, items, m) && forall k: Address :: f(k) == WorkKey(k)
    ensures Entered(w, items, m)
  {
    hide WorkKey, Build;
    forall j | j in items ensures WorkKey(j) in m && m[WorkKey(j)] == Item(Some(items[j]), None) {
      assert f(j) == WorkKey(j);
    }
    forall x | x in m && (x !in w || m[x] != w[x]) ensures exists j :: j in items && WorkKey(j) == x {
      var j :| j in items && f(j) == x;
      assert WorkKey(j) == x;
    }
  }

  /** Entering one more listed object. */
  lemma EnterOne(f: Address -> string, w: Worklist, items: map<Address, Stored>, pending: set<Address>, m: Worklist,
                 k: Address)
    requires pending <= items.Keys && k in pending
    requires forall j: Address :: f(j) == WorkKey(j)
    requires Overwritten(f, w, items - pending, m)
    ensures Overwritten(f, w, items - (pending - {k}), m[f(k) := Item(Some(items[k]), None)])
  {
    hide WorkKey, Build;
    forall j | j in items - pending ensures f(j) != f(k) {
      if f(j) == f(k) {
        WorkKeyInjective(j, k);
      }
    }
    OverwriteOne(f, w, items - pending, m, k, items[k]);
    assert items - (pending - {k}) == (items - pending)[k := items[k]];
  }

  lemma {:induction false} ObjectionStays(job: Job, i: nat, n: nat)
    requires i <= n <= |job.objects| && FirstObjection(job, i).Some?
    ensures FirstObjection(job, n) == FirstObjection(job, i)
  {
    if i < n {
      ObjectionStays(job, i, n - 1);
    }
  }

  /** The position of a call that has listed the first n managed kinds. */
  function ListedUpTo(job: Job, n: nat, w: Worklist): Deploy {
    if n < |job.managed| then Listing(n, w) else AfterListing(job, w)
  }

  /** The caller of a deployer call: the reconciliation it belongs to, what it asks for, where it goes
      on when the call returns (leave), where it started, and what it has made of the cluster since. */
  datatype Caller = Caller(
    name: string, now: int, project: Project, job: Job,
    leave: (int, bool, Error, Worklist) -> Phase, start: World, onTrack: World -> bool)

  /** The caller is a reconciliation as the controller makes it, and on track means that the invariant
      holds and the cluster got from the start to where it is by calls of this reconciliation. */
  ghost predicate Serves(caller: Caller, c: Config) {
    && (forall w {:trigger Goes(c, caller.name, caller.start, w)} ::
          caller.onTrack(w) <==> Inv(c, w.system) && Goes(c, caller.name, caller.start, w))
    && (forall p {:trigger JobFor(c, p)} :: p == caller.project ==> caller.job == JobFor(c, p))
    && (forall clock, ok, err, w {:trigger AfterDeploy(c, caller.now, clock, caller.project, ok, err, w)} ::
          caller.leave(clock, ok, err, w) == AfterDeploy(c, caller.now, clock, caller.project, ok, err, w))
  }

  function Place(caller: Caller, clock: int, d: Deploy): Local {
    Local(caller.now,
          if d.Returned? then caller.leave(clock, d.ok, d.err, d.worklist) else Deploying(caller.project, d))
  }

  /** The caller's reconciliation stands at d within ReconcileObjects. */
  ghost predicate Stands(cluster: Cluster, name: string, caller: Caller, d: Deploy)
    reads cluster
  {
    caller.name == name && caller.onTrack(cluster.State()) && cluster.At(name, Place(caller, cluster.clock, d))
  }

  /** The scope of each managed kind, as the REST mapping tells it. */
  function Scopes(kinds: seq<Kind>): map<Kind, bool> {
    map k | k in kinds :: k.Namespaced()
  }

  class Deployer {
    const managedGVKs: seq<Kind>
    const labelKeyOwner: string
    const annotationKeyDigest: string
    const digest: Object -> string

    constructor New(managedGVKs: seq<Kind>, labelKeyOwner: string, annotationKeyDigest: string,
                    digest: Object -> string)
      ensures this.managedGVKs == managedGVKs && this.labelKeyOwner == labelKeyOwner
      ensures this.annotationKeyDigest == annotationKeyDigest && this.digest == digest
    {
      this.managedGVKs, this.labelKeyOwner := managedGVKs, labelKeyOwner;
      this.annotationKeyDigest, this.digest := annotationKeyDigest, digest;
    }

    ghost function JobOf(objects: seq<Object>, owner: string): Job {
      Job(managedGVKs, labelKeyOwner, annotationKeyDigest, digest, objects, owner)
    }

    /** Enters one listing into the worklist; the server promises no order. */
    method EnterListing(worklist: Worklist, items: map<Address, Stored>) returns (merged: Worklist)
      ensures merged == Merge(worklist, items)
      ensures Entered(worklist, items, merged)
    {
      ghost var f: Address -> string := k => WorkKey(k);
      merged := worklist;
      var pending := items.Keys;
      while pending != {}
        invariant pending <= items.Keys
        invariant Overwritten(f, worklist, items - pending, merged)
        decreases |pending|
      {
        var k :| k in pending;
        EnterOne(f, worklist, items, pending, merged, k);
        merged := merged[WorkKey(k) := Item(Some(items[k]), None)];
        pending := pending - {k};
      }
      assert items - pending == items;
      OverwrittenIsMerge(f, worklist, items, merged);
      OverwrittenIsEntered(f, worklist, items, merged);
    }

    /** The checks and the preparation of one desired object; objection is None if it passes. */
    method Prepare(restMappings: map<Kind, bool>, desired: Object, owner: string, ghost job: Job)
      returns (objection: Option<Objection>, unstructured: Stored)
      requires job == JobOf(job.objects, owner)
      requires restMappings == Scopes(managedGVKs)
      ensures objection == Complaint(job, desired)
      ensures objection.None? ==> unstructured == Prepared(job, desired)
      ensures Rejection(job, desired) == if objection == None then NoError else Error(objection.value.Text())
      ensures objection.None? ==> Carries(job, desired, unstructured)
    {
      ComplaintIsRejection(job, desired);
      PreparedCarries(job, desired);
      hide Rejection, Carries;
      var gvk := desired.kind;
      unstructured := Stored(Key(gvk, desired.namespace, desired.name), desired.labels, desired.annotations,
                             desired.body, 0, false, {}, Verdict.Current);
      if gvk !in restMappings {
        return Some(NotManaged), unstructured;
      }
      if !restMappings[gvk] {
        if desired.namespace != "" {
          return Some(NamespaceSet), unstructured;
        }
      } else {
        if desired.namespace == "" {
          return Some(NamespaceMissing), unstructured;
        }
      }
      var typed := desired;
      if desired.typeMeta.None? {
        typed := desired.(typeMeta := Some(gvk));
      } else if desired.typeMeta.value != gvk {
        return Some(InconsistentKind), unstructured;
      }
      unstructured := unstructured.(labels := unstructured.labels[labelKeyOwner := owner]);
      unstructured := unstructured.(annotations := unstructured.annotations[annotationKeyDigest := digest(typed)]);
      objection := None;
    }

    /** Issues the pending call of a deployer call. */
    method Send(cluster: Cluster, name: string, pick: string, call: Option<Call>, ghost caller: Caller, ghost d: Deploy)
      returns (reply: Reply)
      requires Serves(caller, cluster.config) && Stands(cluster, name, caller, d) && !d.Returned?
      requires call == DeployCall(caller.job, d, pick)
      modifies cluster`system, cluster`clock, cluster`script
      ensures Stands(cluster, name, caller, DeployStep(caller.job, d, pick, reply))
      ensures Answers(call, reply)
    {
      ghost var before := cluster.State();
      assert Goes(cluster.config, name, caller.start, before);
      reply := cluster.Perform(name, pick, call);
      GoesTrans(cluster.config, name, caller.start, before, cluster.State());
    }

    /** Works off one item of the worklist; todo is what is still to be worked off. */
    method Process(cluster: Cluster, name: string, x: string, item: Item, numUnready: nat,
                   ghost caller: Caller, ghost w: Worklist, ghost todo: set<string>)
      returns (more: nat, err: Error, reply: Reply)
      requires Serves(caller, cluster.config) && caller.job.digestKey == annotationKeyDigest
      requires Stands(cluster, name, caller, Working(w, todo, numUnready))
      requires x in w && x in todo && w[x] == item && (item.was.Some? || item.want.Some?)
      modifies cluster`system, cluster`clock, cluster`script
      ensures Stands(cluster, name, caller,
                if err != NoError then Returned(false, err, w) else Proceed(w, todo - {x}, more))
      ensures err == Failure(caller.job, item, reply)
      ensures err == NoError ==> more == numUnready + if Matches(caller.job, item) then 0 else 1
    {
      hide Stands;
      hide WorkKey, Build;
      more, err := numUnready, NoError;
      ghost var d := Working(w, todo, numUnready);
      if item.was.None? {
        reply := Send(cluster, name, x, Some(Create(item.want.value)), caller, d);
        if IgnoreNotFound(reply) != NoError {
          return more, IgnoreNotFound(reply), reply;
        }
        more := more + 1;
      } else if item.want.None? {
        var call := Delete(item.was.value.key, item.was.value.resourceVersion);
        reply := Send(cluster, name, x, Some(call), caller, d);
        if IgnoreNotFound(reply) != NoError {
          return more, IgnoreNotFound(reply), reply;
        }
        more := more + 1;
      } else if Lookup(item.want.value.annotations, annotationKeyDigest)
                != Lookup(item.was.value.annotations, annotationKeyDigest) {
        if item.want.value.key.kind == RoleBinding {
          var call := Delete(item.was.value.key, item.was.value.resourceVersion);
          reply := Send(cluster, name, x, Some(call), caller, d);
          if IgnoreNotFound(reply) != NoError {
            return more, IgnoreNotFound(reply), reply;
          }
        } else {
          var want := item.want.value.(resourceVersion := item.was.value.resourceVersion);
          reply := Send(cluster, name, x, Some(Update(want)), caller, d);
          if ErrorOf(reply) != NoError {
            return more, ErrorOf(reply), reply;
          }
        }
        more := more + 1;
      } else {
        reply := Send(cluster, name, x, None, caller, d);
        match ComputeStatus(item.was.value)
        case Broken(text) => return more, Error(text), reply;
        case Current =>
        case Pending => more := more + 1;
      }
    }

    /** Lists one managed kind and enters what it finds. */
    method ListNext(cluster: Cluster, name: string, i: nat, worklist: Worklist, owner: string, ghost caller: Caller)
      returns (err: Error, merged: Worklist)
      requires Serves(caller, cluster.config) && caller.job == JobOf(caller.job.objects, owner)
      requires i < |managedGVKs| && OnlyListed(worklist)
      requires Stands(cluster, name, caller, Listing(i, worklist))
      modifies cluster`system, cluster`clock, cluster`script
      ensures OnlyListed(merged)
      ensures Stands(cluster, name, caller,
                if err != NoError then Returned(false, err, merged) else ListedUpTo(caller.job, i + 1, merged))
    {
      var reply := Send(cluster, name, "", Some(List(managedGVKs[i], labelKeyOwner, owner)), caller,
                        Listing(i, worklist));
      if !reply.Listed? {
        return ErrorOf(reply), worklist;
      }
      MergeOnlyListed(worklist, reply.items);
      merged := EnterListing(worklist, reply.items);
      err := NoError;
    }

    /** The listing loop; the call ends with an error iff one listing does. */
    method ListAll(cluster: Cluster, name: string, owner: string, ghost caller: Caller)
      returns (err: Error, worklist: Worklist, restMappings: map<Kind, bool>)
      requires Serves(caller, cluster.config) && caller.job == JobOf(caller.job.objects, owner)
      requires Stands(cluster, name, caller, Start(caller.job))
      modifies cluster`system, cluster`clock, cluster`script
      ensures OnlyListed(worklist)
      ensures Stands(cluster, name, caller,
                if err != NoError then Returned(false, err, worklist) else AfterListing(caller.job, worklist))
      ensures err == NoError ==> restMappings == Scopes(managedGVKs)
    {
      hide WorkKey, Build;
      restMappings := map[];
      worklist := map[];
      err := NoError;
      var i := 0;
      while i < |managedGVKs|
        invariant 0 <= i <= |managedGVKs|
        invariant restMappings == Scopes(managedGVKs[..i])
        invariant OnlyListed(worklist) && err == NoError
        invariant Stands(cluster, name, caller, ListedUpTo(caller.job, i, worklist))
      {
        var gvk := managedGVKs[i];
        restMappings := restMappings[gvk := gvk.Namespaced()];
        assert managedGVKs[..i + 1] == managedGVKs[..i] + [gvk];
        err, worklist := ListNext(cluster, name, i, worklist, owner, caller);
        if err != NoError {
          return;
        }
        i := i + 1;
      }
      assert managedGVKs[..i] == managedGVKs;
    }

    /** Enters one desired object. */
    method EnterDesired(worklist: Worklist, unstructured: Stored) returns (merged: Worklist)
      ensures merged == Enlist(worklist, unstructured)
    {
      var x := WorkKey(unstructured.key);
      if x in worklist {
        merged := worklist[x := worklist[x].(want := Some(unstructured))];
      } else {
        merged := worklist[x := Item(None, Some(unstructured))];
      }
    }

    /** Checks, prepares and enters the next desired object. */
    method JoinNext(worklist: Worklist, restMappings: map<Kind, bool>, desired: Object, owner: string,
                    ghost job: Job, ghost listed: Worklist, ghost i: nat)
      returns (objection: Option<Objection>, joined: Worklist)
      requires restMappings == Scopes(managedGVKs) && job == JobOf(job.objects, owner)
      requires i < |job.objects| && desired == job.objects[i]
      requires FirstObjection(job, i).None? && worklist == Joined(job, listed, i)
      ensures objection == FirstObjection(job, i + 1)
      ensures objection.None? ==> joined == Joined(job, listed, i + 1)
    {
      var unstructured;
      objection, unstructured := Prepare(restMappings, desired, owner, job);
      joined := worklist;
      if objection.None? {
        joined := EnterDesired(worklist, unstructured);
      }
    }

    /** The join loop; objection is the first one raised by a desired object. */
    method Join(listed: Worklist, restMappings: map<Kind, bool>, objects: seq<Object>, owner: string, ghost job: Job)
      returns (objection: Option<Objection>, worklist: Worklist)
      requires restMappings == Scopes(managedGVKs) && job == JobOf(objects, owner)
      ensures objection == FirstObjection(job, |objects|)
      ensures objection.None? ==> worklist == Joined(job, listed, |objects|)
    {
      hide WorkKey, Prepared, Complaint;
      worklist := listed;
      var i := 0;
      while i < |objects|
        invariant 0 <= i <= |objects|
        invariant FirstObjection(job, i).None? && worklist == Joined(job, listed, i)
      {
        objection, worklist := JoinNext(worklist, restMappings, objects[i], owner, job, listed, i);
        if objection.Some? {
          ObjectionStays(job, i + 1, |objects|);
          return;
        }
        i := i + 1;
      }
      objection := None;
    }

    /** The processing loop: items are taken in any order. */
    method WorkOff(cluster: Cluster, name: string, worklist: Worklist, ghost caller: Caller)
      returns (ok: bool, err: Error)
      requires Serves(caller, cluster.config) && caller.job.digestKey == annotationKeyDigest
      requires NonEmptyItems(worklist)
      requires Stands(cluster, name, caller, Proceed(worklist, worklist.Keys, 0))
      modifies cluster`system, cluster`clock, cluster`script
      ensures Stands(cluster, name, caller, Returned(ok, err, worklist))
      ensures err == NoError ==> (ok <==> AllMatch(caller.job, worklist))
    {
      var numUnready := 0;
      var todo := worklist.Keys;
      while todo != {}
        invariant todo <= worklist.Keys
        invariant numUnready == 0 <==> forall x | x in worklist && x !in todo :: Matches(caller.job, worklist[x])
        invariant Stands(cluster, name, caller, Proceed(worklist, todo, numUnready))
        decreases |todo|
      {
        var x :| x in todo;
        var more, failure, _ := Process(cluster, name, x, worklist[x], numUnready, caller, worklist, todo);
        if failure != NoError {
          return false, failure;
        }
        numUnready := more;
        todo := todo - {x};
      }
      return numUnready == 0, NoError;
    }

    /** Lists what the owner has, joins it with the desired objects and works the difference off. */
    method ReconcileObjects(cluster: Cluster, name: string, objects: seq<Object>, owner: string, ghost caller: Caller)
      returns (ok: bool, err: Error, ghost w: Worklist, ghost listed: Worklist)
      requires Serves(caller, cluster.config) && caller.job == JobOf(objects, owner)
      requires Stands(cluster, name, caller, Start(caller.job))
      modifies cluster`system, cluster`clock, cluster`script
      ensures Stands(cluster, name, caller, Returned(ok, err, w))
      ensures err == NoError ==>
                OnlyListed(listed) && (ok <==> InSync(caller.job, listed, AllDesired(caller.job)))
    {
      var failure, worklist, restMappings := ListAll(cluster, name, owner, caller);
      listed := worklist;
      if failure != NoError {
        return false, failure, listed, listed;
      }
      var objection;
      objection, worklist := Join(worklist, restMappings, objects, owner, caller.job);
      if objection.Some? {
        return false, Error(objection.value.Text()), listed, listed;
      }
      JoinIsOuterJoin(caller.job, listed, |objects|);
      SyncIsAllMatch(caller.job, worklist, listed);
      w := worklist;
      ok, err := WorkOff(cluster, name, worklist, caller);
    }
  }
}
