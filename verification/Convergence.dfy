/** How fast ReconcileObjects brings a project's objects in sync when nobody interferes, and that a
    round cut short by a failing call loses nothing. */
module Convergence {
  import opened Kubernetes
  import opened Names
  import opened ApiServer
  import opened Deployment
  import opened Compilation
  import opened Runs
  import opened Safety

  /** One step of the deployer and what becomes of its call. */
  datatype Turn = Turn(pick: string, fate: Fate)

  function RoundStep(job: Job, s: Server, d: Deploy, turn: Turn): (Server, Deploy) {
    match DeployCall(job, d, turn.pick)
    case None => (s, DeployStep(job, d, turn.pick, Accepted))
    case Some(call) =>
      var (t, reply) := Serve(s, call, turn.fate);
      (t, DeployStep(job, d, turn.pick, reply))
  }

  /** A round without interference: only the deployer touches the server. */
  function Round(job: Job, s: Server, d: Deploy, turns: seq<Turn>): (Server, Deploy)
    decreases |turns|
  {
    if turns == [] then (s, d)
    else var (t, e) := RoundStep(job, s, d, turns[0]); Round(job, t, e, turns[1..])
  }

  predicate AllServed(turns: seq<Turn>) {
    forall i | 0 <= i < |turns| :: turns[i].fate.Served?
  }

  predicate OwnedBy(s: Server, u: string, k: Key) {
    k in s.objects && OwnerOf(s.objects[k]) == Some(u)
  }

  predicate HasNamespace(c: Config, s: Server, n: string) {
    NamespaceKeyOf(c, n) in s.objects
  }

  /** The desired object under worklist key x is in place at k. */
  predicate InPlace(job: Job, s: Server, x: string, k: Key) {
    && x in AllDesired(job) && OwnedBy(s, job.owner, k)
    && SameDigest(AnnotationKeyDigest, s.objects[k], AllDesired(job)[x])
  }

  /** How many rounds the key k, with worklist key x, still needs. */
  function GapAt(c: Config, n: string, job: Job, s: Server, x: string, k: Key): nat {
    if x in AllDesired(job) then
      if !OwnedBy(s, job.owner, k) then (if k.kind.RoleBinding? && !HasNamespace(c, s, n) then 2 else 1)
      else if SameDigest(AnnotationKeyDigest, s.objects[k], AllDesired(job)[x]) then 0
      else if k.kind.RoleBinding? then 2 else 1
    else if OwnedBy(s, job.owner, k) then 1 else 0
  }

  function Gap(c: Config, n: string, job: Job, s: Server, k: Key): nat {
    GapAt(c, n, job, s, WorkKey(k), k)
  }

  /** Only the four keys of the project's name can have a gap. */
  function Rank(c: Config, n: string, job: Job, s: Server): nat {
    Gap(c, n, job, s, NamespaceKeyOf(c, n)) + Gap(c, n, job, s, AdminKey(c, n))
    + Gap(c, n, job, s, ViewerKey(c, n)) + Gap(c, n, job, s, ViewKey(n))
  }

  /** What the compiler guarantees for the object list of a project that is not being deleted. */
  ghost predicate ProjectJob(c: Config, n: string, job: Job) {
    && c.namespacePrefix != "" && job.managed == Managed
    && job.ownerKey == LabelKeyOwner && job.digestKey == AnnotationKeyDigest
    && FirstObjection(job, |job.objects|).None?
    && (exists x :: x in AllDesired(job) && AllDesired(job)[x].key == NamespaceKeyOf(c, n))
    && (forall x | x in AllDesired(job) :: WantOk(c, n, job, AllDesired(job)[x]))
    && (forall x | x in AllDesired(job) :: x == WorkKey(AllDesired(job)[x].key))
  }

  predicate WantOk(c: Config, n: string, job: Job, o: Stored) {
    && Belongs(c, n, o.key) && Addressable(o.key)
    && OwnerOf(o) == Some(job.owner)
    && (o.key.kind.ClusterRoleBinding? ==> o.body.Binding? && o.body.role == "view")
    && (o.key.kind.Namespace? ==> o.body.NoBody?)
  }

  lemma BuildIsProjectJob(c: Config, p: Project)
    requires c.namespacePrefix != "" && !p.deleting
    ensures ProjectJob(c, p.name, JobFor(c, p))
  {
    hide WorkKey, Build;
    var job := JobFor(c, p);
    DesiredBelongs(c, p);
    forall x | x in AllDesired(job) ensures WantOk(c, p.name, job, AllDesired(job)[x]) {
      var i := DesiredFrom(job, |job.objects|, x);
      BuildBodies(c, p.name, p.spec);
      BelongsAddressable(c, p.name, AllDesired(job)[x].key);
    }
    var x := WorkKey(NamespaceKeyOf(c, p.name));
    BelongsAddressable(c, p.name, NamespaceKeyOf(c, p.name));
    WorkKeyInjective(AllDesired(job)[x].key, NamespaceKeyOf(c, p.name));
  }

  /** An owned object that is ready and stands in the way of nothing. */
  predicate Healthy(o: Stored) {
    && !o.terminating && o.verdict == Verdict.Current
    && (!o.key.kind.Namespace? ==> o.finalizers == {})
    && (o.key.kind.ClusterRoleBinding? ==> SameRole(o.body, Binding([], "view")))
  }

  /** No object of the project is terminating, unready or held by a finalizer, and no desired key is
      taken by an object the project does not own. */
  ghost predicate Calm(c: Config, n: string, job: Job, s: Server) {
    && ServerOk(s)
    && (forall k | k in s.objects && OwnerOf(s.objects[k]) == Some(job.owner) ::
          Belongs(c, n, k) && Healthy(s.objects[k]))
    && (forall x | x in AllDesired(job) && AllDesired(job)[x].key in s.objects ::
          OwnedBy(s, job.owner, AllDesired(job)[x].key))
  }

  // ---- One item -----------------------------------------------------------------------------

  function ItemKey(item: Item): Key
    requires item.was.Some? || item.want.Some?
  {
    if item.was.Some? then item.was.value.key else item.want.value.key
  }

  /** The item shows its key as it is on the server. */
  ghost predicate Reflects(c: Config, n: string, job: Job, s: Server, x: string, item: Item) {
    && (item.was.Some? || item.want.Some?)
    && var k := ItemKey(item);
    && Belongs(c, n, k) && Addressable(k)
    && item.want == (if x in AllDesired(job) then Some(AllDesired(job)[x]) else None)
    && (item.want.Some? ==> item.want.value.key == k)
    && (forall y | y in AllDesired(job) && AllDesired(job)[y].key == k :: y == x)
    && item.was == (if OwnedBy(s, job.owner, k) then Some(s.objects[k]) else None)
  }

  /** Apart from k, t is as s. */
  ghost predicate OnlyAt(s: Server, t: Server, k: Key) {
    && t.projects == s.projects
    && forall j: Address | j != k ::
         (j in t.objects <==> j in s.objects) && (j in s.objects ==> t.objects[j] == s.objects[j])
  }

  /** The object at k, if any, is owned and healthy. */
  predicate Sound(job: Job, t: Server, k: Key) {
    k in t.objects ==> OwnedBy(t, job.owner, k) && Healthy(t.objects[k])
  }

  lemma PutOnlyAt(s: Server, k: Address, o: Stored)
    ensures OnlyAt(s, PutObject(s, k, o), k)
    ensures o.terminating && o.finalizers == {} ==> k !in PutObject(s, k, o).objects
    ensures !o.terminating ==>
              PutObject(s, k, o).objects == s.objects[k := o.(key := k, resourceVersion := s.revision + 1)]
  {
  }

  lemma ServedCreate(s: Server, k: Address, o: Stored)
    requires o.key == k && k !in s.objects
    requires k.kind.Namespaced() && NamespaceKey(k.namespace) in s.objects
             ==> !s.objects[NamespaceKey(k.namespace)].terminating
    ensures Apply(s, Create(o)) == if k.kind.Namespaced() && NamespaceKey(k.namespace) !in s.objects
                                   then (s, NotFound) else (PutObject(s, k, Born(o)), Accepted)
  {
  }

  lemma BornInPlace(c: Config, n: string, job: Job, s: Server, x: string, k: Address)
    requires x in AllDesired(job) && AllDesired(job)[x].key == k && WantOk(c, n, job, AllDesired(job)[x])
    ensures var t := PutObject(s, k, Born(AllDesired(job)[x]));
            OnlyAt(s, t, k) && Sound(job, t, k) && InPlace(job, t, x, k)
  {
    PutOnlyAt(s, k, Born(AllDesired(job)[x]));
  }

  lemma CreateItem(c: Config, n: string, job: Job, s: Server, x: string, item: Item)
    requires ProjectJob(c, n, job) && Calm(c, n, job, s) && Reflects(c, n, job, s, x, item) && item.was.None?
    ensures var (t, reply) := Apply(s, Create(item.want.value));
            var k := ItemKey(item);
            && OnlyAt(s, t, k) && Sound(job, t, k) && IgnoreNotFound(reply) == NoError
            && if k.kind.RoleBinding? && !HasNamespace(c, s, n) then t == s else InPlace(job, t, x, k)
  {
    var o := item.want.value;
    assert WantOk(c, n, job, o);
    var k: Address := o.key;
    if k.kind.Namespaced() {
      assert NamespaceKey(k.namespace) == NamespaceKeyOf(c, n);
      if HasNamespace(c, s, n) {
        NamespaceCalm(c, n, job, s);
      }
    }
    ServedCreate(s, k, o);
    BornInPlace(c, n, job, s, x, k);
  }

  lemma NamespaceCalm(c: Config, n: string, job: Job, s: Server)
    requires ProjectJob(c, n, job) && Calm(c, n, job, s) && HasNamespace(c, s, n)
    ensures OwnedBy(s, job.owner, NamespaceKeyOf(c, n)) && !s.objects[NamespaceKeyOf(c, n)].terminating
  {
    var x :| x in AllDesired(job) && AllDesired(job)[x].key == NamespaceKeyOf(c, n);
    assert Healthy(s.objects[NamespaceKeyOf(c, n)]);
  }

  lemma DeleteItem(c: Config, n: string, job: Job, s: Server, x: string, item: Item)
    requires Calm(c, n, job, s) && Reflects(c, n, job, s, x, item) && item.was.Some?
    requires !item.was.value.key.kind.Namespace?
    ensures var (t, reply) := Apply(s, Delete(item.was.value.key, item.was.value.resourceVersion));
            ItemKey(item) !in t.objects && OnlyAt(s, t, ItemKey(item)) && reply == Accepted
  {
    var k: Address := item.was.value.key;
    PutOnlyAt(s, k, s.objects[k].(terminating := true));
  }

  lemma ServedUpdate(s: Server, k: Address, o: Stored)
    requires o.key == k && k in s.objects && s.objects[k].resourceVersion == o.resourceVersion
    requires SameRole(s.objects[k].body, o.body)
    ensures Apply(s, Update(o)) == (PutObject(s, k, Replaced(s.objects[k], o)), Accepted)
  {
  }

  lemma ReplacedInPlace(c: Config, n: string, job: Job, s: Server, x: string, k: Address, o: Stored)
    requires x in AllDesired(job) && AllDesired(job)[x].key == k && WantOk(c, n, job, AllDesired(job)[x])
    requires o == AllDesired(job)[x].(resourceVersion := o.resourceVersion)
    requires ObjectsOk(s) && OwnedBy(s, job.owner, k) && Healthy(s.objects[k])
    ensures var t := PutObject(s, k, Replaced(s.objects[k], o));
            OnlyAt(s, t, k) && Sound(job, t, k) && InPlace(job, t, x, k)
  {
    PutOnlyAt(s, k, Replaced(s.objects[k], o));
  }

  lemma UpdateItem(c: Config, n: string, job: Job, s: Server, x: string, item: Item)
    requires ProjectJob(c, n, job) && Calm(c, n, job, s) && Reflects(c, n, job, s, x, item)
    requires item.was.Some? && item.want.Some? && !item.was.value.key.kind.RoleBinding?
    ensures var (t, reply) := Apply(s, Update(item.want.value.(resourceVersion := item.was.value.resourceVersion)));
            var k := ItemKey(item);
            OnlyAt(s, t, k) && InPlace(job, t, x, k) && Sound(job, t, k) && reply == Accepted
  {
    assert WantOk(c, n, job, item.want.value);
    var o := item.want.value.(resourceVersion := item.was.value.resourceVersion);
    var k: Address := o.key;
    assert Healthy(s.objects[k]);
    ServedUpdate(s, k, o);
    ReplacedInPlace(c, n, job, s, x, k, o);
  }

  // ---- One step of the loop -----------------------------------------------------------------

  lemma CalmKept(c: Config, n: string, job: Job, s: Server, t: Server, k: Key)
    requires Calm(c, n, job, s) && ServerOk(t) && OnlyAt(s, t, k) && Sound(job, t, k) && Belongs(c, n, k)
    ensures Calm(c, n, job, t)
  {
    forall x | x in AllDesired(job) && AllDesired(job)[x].key in t.objects
      ensures OwnedBy(t, job.owner, AllDesired(job)[x].key)
    {
      if AllDesired(job)[x].key != k {
        assert AllDesired(job)[x].key in s.objects;
      }
    }
  }

  /** Where nothing changes, the gap can only shrink, because the namespace can only appear. */
  lemma GapElsewhere(c: Config, n: string, job: Job, s: Server, t: Server, k: Key, y: string, j: Key)
    requires OnlyAt(s, t, k) && j != k && Addressable(j) && (HasNamespace(c, s, n) ==> HasNamespace(c, t, n))
    ensures GapAt(c, n, job, t, y, j) <= GapAt(c, n, job, s, y, j)
    ensures OwnedBy(t, job.owner, j) == OwnedBy(s, job.owner, j)
  {
  }

  /** The item's own key after a served call: settled, one round closer, or still waiting for the
      namespace. */
  predicate Advanced(c: Config, n: string, job: Job, s: Server, t: Server, x: string, k: Key) {
    || GapAt(c, n, job, t, x, k) == 0
    || GapAt(c, n, job, t, x, k) < GapAt(c, n, job, s, x, k)
    || (t == s && k.kind.RoleBinding? && !HasNamespace(c, s, n) && !OwnedBy(s, job.owner, k) && x in AllDesired(job))
  }

  ghost predicate Handled(c: Config, n: string, job: Job, s: Server, t: Server, x: string, k: Key) {
    && OnlyAt(s, t, k) && (t == s || Sound(job, t, k))
    && Advanced(c, n, job, s, t, x, k)
    && (HasNamespace(c, s, n) ==> HasNamespace(c, t, n))
    && (k == NamespaceKeyOf(c, n) ==> HasNamespace(c, t, n))
  }

  lemma NamespaceDesired(c: Config, n: string, job: Job, s: Server, x: string, item: Item)
    requires ProjectJob(c, n, job) && Reflects(c, n, job, s, x, item) && ItemKey(item).kind.Namespace?
    ensures item.want.Some? && ItemKey(item) == NamespaceKeyOf(c, n)
  {
    var y :| y in AllDesired(job) && AllDesired(job)[y].key == NamespaceKeyOf(c, n);
  }

  lemma InPlaceHandled(c: Config, n: string, job: Job, s: Server, t: Server, x: string, k: Key)
    requires OnlyAt(s, t, k) && Sound(job, t, k) && InPlace(job, t, x, k) && Addressable(NamespaceKeyOf(c, n))
    ensures Handled(c, n, job, s, t, x, k)
  {
  }

  lemma GoneHandled(c: Config, n: string, job: Job, s: Server, t: Server, x: string, item: Item)
    requires Calm(c, n, job, s) && Reflects(c, n, job, s, x, item) && item.was.Some?
    requires item.want.Some? ==>
               ItemKey(item).kind.RoleBinding? && !SameDigest(AnnotationKeyDigest, item.was.value, item.want.value)
    requires !ItemKey(item).kind.Namespace? && Addressable(NamespaceKeyOf(c, n))
    requires OnlyAt(s, t, ItemKey(item)) && ItemKey(item) !in t.objects
    ensures Handled(c, n, job, s, t, x, ItemKey(item))
  {
    var k: Address := ItemKey(item);
    if k.kind.Namespaced() {
      assert NamespaceKey(k.namespace) in s.objects;
    }
  }

  lemma CreateHandled(c: Config, n: string, job: Job, s: Server, x: string, item: Item)
    requires ProjectJob(c, n, job) && Calm(c, n, job, s) && Reflects(c, n, job, s, x, item)
    requires item.was.None? && ItemCall(job, item).Some?
    requires ItemKey(item).kind.Namespace? ==> item.want.Some? && ItemKey(item) == NamespaceKeyOf(c, n)
    ensures var (t, reply) := Apply(s, ItemCall(job, item).value);
            Handled(c, n, job, s, t, x, ItemKey(item)) && ItemProgress(job, item, reply) == Unsettled
  {
    var t := Apply(s, ItemCall(job, item).value).0;
    BelongsAddressable(c, n, NamespaceKeyOf(c, n));
    CreateItem(c, n, job, s, x, item);
    if t != s {
      InPlaceHandled(c, n, job, s, t, x, ItemKey(item));
    }
  }

  lemma DeleteHandled(c: Config, n: string, job: Job, s: Server, x: string, item: Item)
    requires ProjectJob(c, n, job) && Calm(c, n, job, s) && Reflects(c, n, job, s, x, item)
    requires item.was.Some? && ItemCall(job, item).Some?
    requires item.want.None? || ItemKey(item).kind.RoleBinding?
    requires ItemKey(item).kind.Namespace? ==> item.want.Some?
    ensures var (t, reply) := Apply(s, ItemCall(job, item).value);
            Handled(c, n, job, s, t, x, ItemKey(item)) && ItemProgress(job, item, reply) == Unsettled
  {
    hide WorkKey, Belongs, JobFor;
    BelongsAddressable(c, n, NamespaceKeyOf(c, n));
    DeleteItem(c, n, job, s, x, item);
    GoneHandled(c, n, job, s, Apply(s, ItemCall(job, item).value).0, x, item);
  }

  lemma UpdateHandled(c: Config, n: string, job: Job, s: Server, x: string, item: Item)
    requires ProjectJob(c, n, job) && Calm(c, n, job, s) && Reflects(c, n, job, s, x, item)
    requires item.was.Some? && item.want.Some? && ItemCall(job, item).Some? && !ItemKey(item).kind.RoleBinding?
    ensures var (t, reply) := Apply(s, ItemCall(job, item).value);
            Handled(c, n, job, s, t, x, ItemKey(item)) && ItemProgress(job, item, reply) == Unsettled
  {
    hide WorkKey, Belongs, JobFor;
    BelongsAddressable(c, n, NamespaceKeyOf(c, n));
    UpdateItem(c, n, job, s, x, item);
    InPlaceHandled(c, n, job, s, Apply(s, ItemCall(job, item).value).0, x, ItemKey(item));
  }

  /** Working off an item with a call. */
  lemma CallHandled(c: Config, n: string, job: Job, s: Server, x: string, item: Item)
    requires ProjectJob(c, n, job) && Calm(c, n, job, s) && Reflects(c, n, job, s, x, item)
    requires ItemCall(job, item).Some?
    ensures var (t, reply) := Apply(s, ItemCall(job, item).value);
            Handled(c, n, job, s, t, x, ItemKey(item)) && ItemProgress(job, item, reply) == Unsettled
  {
    if ItemKey(item).kind.Namespace? {
      NamespaceDesired(c, n, job, s, x, item);
    }
    if item.was.None? {
      CreateHandled(c, n, job, s, x, item);
    } else if item.want.None? || ItemKey(item).kind.RoleBinding? {
      DeleteHandled(c, n, job, s, x, item);
    } else {
      UpdateHandled(c, n, job, s, x, item);
    }
  }

  /** An item without a call is in sync. */
  lemma NoCallInSync(c: Config, n: string, job: Job, s: Server, x: string, item: Item)
    requires ProjectJob(c, n, job) && Calm(c, n, job, s) && Reflects(c, n, job, s, x, item)
    ensures Matches(job, item) <==> GapAt(c, n, job, s, x, ItemKey(item)) == 0
    ensures ItemCall(job, item).None? <==> Matches(job, item)
  {
  }

  // ---- The loop -----------------------------------------------------------------------------

  /** Every item sits under the worklist key of its own key. */
  ghost predicate Keyed(c: Config, n: string, w: Worklist) {
    forall x | x in w ::
      && (w[x].was.Some? || w[x].want.Some?)
      && Belongs(c, n, ItemKey(w[x])) && Addressable(ItemKey(w[x])) && x == WorkKey(ItemKey(w[x]))
  }

  /** What holds between the start s0 of the processing loop and a later state s of it, however the
      calls in between fared. */
  ghost predicate LoopOk(c: Config, n: string, job: Job, s0: Server, s: Server, w: Worklist, todo: set<string>) {
    && Calm(c, n, job, s)
    && (HasNamespace(c, s0, n) ==> HasNamespace(c, s, n))
    && Keyed(c, n, w) && AllDesired(job).Keys <= w.Keys
    && (forall x | x in w :: Reflects(c, n, job, s0, x, w[x]))
    && (forall x | x in todo :: x in w && Reflects(c, n, job, s, x, w[x]))
    && (forall x | x in w :: GapAt(c, n, job, s, x, ItemKey(w[x])) <= GapAt(c, n, job, s0, x, ItemKey(w[x])))
    && AllIn(job, s, w)
  }

  /** What a served step has achieved for a processed item by the time the state is s. */
  ghost predicate Closer(c: Config, n: string, job: Job, s0: Server, s: Server, x: string, k: Key) {
    && (|| GapAt(c, n, job, s, x, k) == 0
        || GapAt(c, n, job, s, x, k) < GapAt(c, n, job, s0, x, k)
        || (k.kind.RoleBinding? && !HasNamespace(c, s0, n) && !OwnedBy(s0, job.owner, k)
            && !OwnedBy(s, job.owner, k) && x in AllDesired(job)))
    && (k == NamespaceKeyOf(c, n) ==> HasNamespace(c, s, n))
  }

  ghost predicate AllCloser(c: Config, n: string, job: Job, s0: Server, s: Server, w: Worklist, todo: set<string>) {
    forall x | x in w && x !in todo && (w[x].was.Some? || w[x].want.Some?) :: Closer(c, n, job, s0, s, x, ItemKey(w[x]))
  }

  lemma OtherItems(c: Config, n: string, job: Job, s0: Server, s: Server, t: Server, w: Worklist, todo: set<string>,
                   pick: string)
    requires LoopOk(c, n, job, s0, s, w, todo) && pick in todo
    requires OnlyAt(s, t, ItemKey(w[pick])) && (HasNamespace(c, s, n) ==> HasNamespace(c, t, n))
    ensures forall x | x in w && x != pick ::
              && GapAt(c, n, job, t, x, ItemKey(w[x])) <= GapAt(c, n, job, s, x, ItemKey(w[x]))
              && OwnedBy(t, job.owner, ItemKey(w[x])) == OwnedBy(s, job.owner, ItemKey(w[x]))
              && (x in todo ==> Reflects(c, n, job, t, x, w[x]))
  {
    forall x | x in w && x != pick
      ensures
        && GapAt(c, n, job, t, x, ItemKey(w[x])) <= GapAt(c, n, job, s, x, ItemKey(w[x]))
        && OwnedBy(t, job.owner, ItemKey(w[x])) == OwnedBy(s, job.owner, ItemKey(w[x]))
        && (x in todo ==> Reflects(c, n, job, t, x, w[x]))
    {
      GapElsewhere(c, n, job, s, t, ItemKey(w[pick]), x, ItemKey(w[x]));
    }
  }

  /** A handled item keeps the loop going. */
  lemma LoopStep(c: Config, n: string, job: Job, s0: Server, s: Server, t: Server, w: Worklist, todo: set<string>,
                 pick: string)
    requires LoopOk(c, n, job, s0, s, w, todo) && pick in todo && ServerOk(t)
    requires Handled(c, n, job, s, t, pick, ItemKey(w[pick]))
    ensures LoopOk(c, n, job, s0, t, w, todo - {pick})
  {
    hide WorkKey, Build, GapAt, InPlace;
    if t != s {
      CalmKept(c, n, job, s, t, ItemKey(w[pick]));
    }
    OtherItems(c, n, job, s0, s, t, w, todo, pick);
    AllStillIn(job, s, t, w, ItemKey(w[pick]));
  }

  /** Every owned object is in the worklist. */
  ghost predicate AllIn(job: Job, s: Server, w: Worklist) {
    forall k | k in s.objects && OwnerOf(s.objects[k]) == Some(job.owner) :: WorkKey(k) in w
  }

  lemma AllStillIn(job: Job, s: Server, t: Server, w: Worklist, k: Key)
    requires AllIn(job, s, w) && OnlyAt(s, t, k) && WorkKey(k) in w
    ensures AllIn(job, t, w)
  {
    hide WorkKey;
    forall j | j in t.objects && OwnerOf(t.objects[j]) == Some(job.owner) ensures WorkKey(j) in w {
      if j != k {
        assert j in s.objects && s.objects[j] == t.objects[j];
      }
    }
  }

  lemma CloserOwn(c: Config, n: string, job: Job, s0: Server, s: Server, t: Server, x: string, item: Item)
    requires Reflects(c, n, job, s0, x, item) && Reflects(c, n, job, s, x, item)
    requires HasNamespace(c, s0, n) ==> HasNamespace(c, s, n)
    requires GapAt(c, n, job, s, x, ItemKey(item)) <= GapAt(c, n, job, s0, x, ItemKey(item))
    requires Handled(c, n, job, s, t, x, ItemKey(item))
    ensures Closer(c, n, job, s0, t, x, ItemKey(item))
  {
  }

  lemma CloserOther(c: Config, n: string, job: Job, s0: Server, s: Server, t: Server, x: string, k: Key)
    requires Closer(c, n, job, s0, s, x, k)
    requires GapAt(c, n, job, t, x, k) <= GapAt(c, n, job, s, x, k)
             && OwnedBy(t, job.owner, k) == OwnedBy(s, job.owner, k)
    requires HasNamespace(c, s, n) ==> HasNamespace(c, t, n)
    ensures Closer(c, n, job, s0, t, x, k)
  {
  }

  lemma CloserStep(c: Config, n: string, job: Job, s0: Server, s: Server, t: Server, w: Worklist, todo: set<string>,
                   pick: string)
    requires Keyed(c, n, w)
    requires pick in w && Closer(c, n, job, s0, t, pick, ItemKey(w[pick])) && AllCloser(c, n, job, s0, s, w, todo)
    requires HasNamespace(c, s, n) ==> HasNamespace(c, t, n)
    requires forall x | x in w && x != pick ::
               && GapAt(c, n, job, t, x, ItemKey(w[x])) <= GapAt(c, n, job, s, x, ItemKey(w[x]))
               && OwnedBy(t, job.owner, ItemKey(w[x])) == OwnedBy(s, job.owner, ItemKey(w[x]))
    ensures AllCloser(c, n, job, s0, t, w, todo - {pick})
  {
    forall x | x in w && x !in todo && x != pick ensures Closer(c, n, job, s0, t, x, ItemKey(w[x])) {
      CloserOther(c, n, job, s0, s, t, x, ItemKey(w[x]));
    }
  }

  lemma LoopStepCloser(c: Config, n: string, job: Job, s0: Server, s: Server, t: Server, w: Worklist,
                       todo: set<string>, pick: string)
    requires LoopOk(c, n, job, s0, s, w, todo) && pick in todo && AllCloser(c, n, job, s0, s, w, todo)
    requires Handled(c, n, job, s, t, pick, ItemKey(w[pick]))
    ensures AllCloser(c, n, job, s0, t, w, todo - {pick})
  {
    OtherItems(c, n, job, s0, s, t, w, todo, pick);
    CloserOwn(c, n, job, s0, s, t, pick, w[pick]);
    CloserStep(c, n, job, s0, s, t, w, todo, pick);
  }

  /** After the whole worklist every gap has shrunk: by then the namespace exists. */
  lemma LoopEnd(c: Config, n: string, job: Job, s0: Server, s: Server, w: Worklist)
    requires ProjectJob(c, n, job) && LoopOk(c, n, job, s0, s, w, {}) && AllCloser(c, n, job, s0, s, w, {})
    ensures forall x | x in w :: var k := ItemKey(w[x]);
              GapAt(c, n, job, s, x, k) == 0 || GapAt(c, n, job, s, x, k) < GapAt(c, n, job, s0, x, k)
  {
    var y :| y in AllDesired(job) && AllDesired(job)[y].key == NamespaceKeyOf(c, n);
    assert Reflects(c, n, job, s0, y, w[y]);
    assert Closer(c, n, job, s0, s, y, ItemKey(w[y]));
    forall x | x in w
      ensures var k := ItemKey(w[x]);
              GapAt(c, n, job, s, x, k) == 0 || GapAt(c, n, job, s, x, k) < GapAt(c, n, job, s0, x, k)
    {
      assert Closer(c, n, job, s0, s, x, ItemKey(w[x]));
    }
  }

  // ---- Listing ------------------------------------------------------------------------------

  /** The listing so far shows the server. */
  ghost predicate ListingOk(s: Server, u: string, d: Deploy) {
    && d.Listing? && Covered(s, u, d)
    && forall x | x in d.worklist ::
         && d.worklist[x].was.Some? && d.worklist[x].want.None?
         && var o := d.worklist[x].was.value;
         OwnedBy(s, u, o.key) && s.objects[o.key] == o && x == WorkKey(o.key)
  }

  lemma ListingStep(job: Job, s: Server, d: Deploy)
    requires ServerOk(s) && ListingOk(s, job.owner, d) && d.next < |Managed|
    ensures ListingOk(s, job.owner, Listing(d.next + 1, Merge(d.worklist, ListReply(s, Managed[d.next], job.owner))))
  {
    hide WorkKey, Build;
    var items := ListReply(s, Managed[d.next], job.owner);
    var w := Merge(d.worklist, items);
    MergedCovered(s, job.owner, d.worklist, d.next);
    forall x | x in w
      ensures w[x].was.Some? && w[x].want.None?
      ensures OwnedBy(s, job.owner, w[x].was.value.key) && s.objects[w[x].was.value.key] == w[x].was.value
      ensures x == WorkKey(w[x].was.value.key)
    {
      var k := MergeEntry(d.worklist, items, x);
      if k.Some? {
        assert items[k.value] == s.objects[k.value] && s.objects[k.value].key == k.value;
      }
    }
  }

  lemma JoinedReflects(c: Config, n: string, job: Job, s: Server, listed: Worklist, w: Worklist, x: string)
    requires ProjectJob(c, n, job) && Calm(c, n, job, s) && ListingOk(s, job.owner, Listing(3, listed))
    requires OuterJoin(w, listed, AllDesired(job)) && x in w
    ensures Reflects(c, n, job, s, x, w[x]) && x == WorkKey(ItemKey(w[x]))
  {
    var item := w[x];
    if x in AllDesired(job) {
      assert WantOk(c, n, job, AllDesired(job)[x]);
    }
    var k := ItemKey(item);
    if x in listed {
      assert OwnedBy(s, job.owner, k);
      if x in AllDesired(job) {
        WorkKeyInjective(AllDesired(job)[x].key, k);
      }
    }
    AllKindsListed(listed, k.kind);
    assert OwnedBy(s, job.owner, k) ==> WorkKey(k) in listed;
    forall y | y in AllDesired(job) && AllDesired(job)[y].key == k ensures y == x {
      assert y == WorkKey(AllDesired(job)[y].key);
    }
  }

  /** The joined worklist starts the loop. */
  lemma LoopStart(c: Config, n: string, job: Job, s: Server, listed: Worklist)
    requires ProjectJob(c, n, job) && Calm(c, n, job, s) && ListingOk(s, job.owner, Listing(3, listed))
    ensures var w := Joined(job, listed, |job.objects|);
            LoopOk(c, n, job, s, s, w, w.Keys) && w != map[] && Deployment.OuterJoin(w, listed, AllDesired(job))
  {
    var w := Joined(job, listed, |job.objects|);
    JoinIsOuterJoin(job, listed, |job.objects|);
    forall x | x in w ensures Reflects(c, n, job, s, x, w[x]) && x == WorkKey(ItemKey(w[x])) {
      JoinedReflects(c, n, job, s, listed, w, x);
    }
    forall k | k in s.objects && OwnerOf(s.objects[k]) == Some(job.owner) ensures WorkKey(k) in w {
      AllKindsListed(listed, k.kind);
    }
    var y :| y in AllDesired(job) && AllDesired(job)[y].key == NamespaceKeyOf(c, n);
    assert y in w;
  }

  // ---- Rounds -------------------------------------------------------------------------------

  /** The keys still to be processed. */
  function Todo(d: Deploy): set<string> {
    if d.Working? then d.todo else {}
  }

  /** A step of the loop, whatever becomes of its call, and whoever else acts elsewhere. */
  ghost predicate Looping(c: Config, n: string, job: Job, s0: Server, s: Server, w: Worklist, d: Deploy) {
    !d.Listing? && d.worklist == w && Counted(job, d) && LoopOk(c, n, job, s0, s, w, Todo(d))
  }

  /** Nothing was found unready so far. */
  predicate Clean(d: Deploy) {
    (d.Working? && d.numUnready == 0) || (d.Returned? && d.ok)
  }

  /** A step of the loop when nobody else acts. */
  ghost predicate InLoop(c: Config, n: string, job: Job, s0: Server, s: Server, w: Worklist, d: Deploy) {
    Looping(c, n, job, s0, s, w, d) && s.projects == s0.projects && (Clean(d) ==> s == s0)
  }

  lemma NoCallHandled(c: Config, n: string, job: Job, s: Server, x: string, item: Item)
    requires ProjectJob(c, n, job) && Calm(c, n, job, s) && Reflects(c, n, job, s, x, item)
    requires ItemCall(job, item).None?
    ensures Handled(c, n, job, s, s, x, ItemKey(item)) && ItemProgress(job, item, Accepted) == Settled
  {
    NoCallInSync(c, n, job, s, x, item);
  }

  lemma LoopWeaken(c: Config, n: string, job: Job, s0: Server, s: Server, w: Worklist, todo: set<string>,
                   less: set<string>)
    requires LoopOk(c, n, job, s0, s, w, todo) && less <= todo
    ensures LoopOk(c, n, job, s0, s, w, less)
  {
  }

  /** The server after an item's call has been served, if it has one. */
  function AfterItem(job: Job, s: Server, item: Item): Server {
    if ItemCall(job, item).Some? then Apply(s, ItemCall(job, item).value).0 else s
  }

  /** The item is served without complaint. */
  predicate Smooth(job: Job, s: Server, item: Item) {
    match ItemCall(job, item)
    case None => ItemProgress(job, item, Accepted) == Settled
    case Some(call) => ItemProgress(job, item, Apply(s, call).1) == Unsettled
  }

  lemma TurnShape(job: Job, s: Server, d: Deploy, turn: Turn)
    requires d.Working? && turn.pick in d.todo && turn.pick in d.worklist
    requires Smooth(job, s, d.worklist[turn.pick])
    ensures Shape(job, s, d, turn, RoundStep(job, s, d, turn).0, RoundStep(job, s, d, turn).1)
  {
  }

  lemma TurnHandled(c: Config, n: string, job: Job, s0: Server, s: Server, w: Worklist, todo: set<string>, pick: string)
    requires ProjectJob(c, n, job) && LoopOk(c, n, job, s0, s, w, todo) && pick in todo
    ensures Smooth(job, s, w[pick])
    ensures var t := AfterItem(job, s, w[pick]);
            && LoopOk(c, n, job, s0, t, w, todo - {pick})
            && (AllCloser(c, n, job, s0, s, w, todo) ==> AllCloser(c, n, job, s0, t, w, todo - {pick}))
            && (ItemCall(job, w[pick]).None? ==> t == s) && t.projects == s.projects
  {
    var t := AfterItem(job, s, w[pick]);
    ServedTurn(c, n, job, s, pick, w[pick]);
    TurnServerOk(s, job, w[pick]);
    LoopStep(c, n, job, s0, s, t, w, todo, pick);
    if AllCloser(c, n, job, s0, s, w, todo) {
      LoopStepCloser(c, n, job, s0, s, t, w, todo, pick);
    }
  }

  /** How a turn moves the loop: the item is served and ticked off, or the call fails and ends it. */
  ghost predicate Shape(job: Job, s: Server, d: Deploy, turn: Turn, t: Server, e: Deploy)
    requires d.Working? && turn.pick in d.worklist
  {
    var item := d.worklist[turn.pick];
    var n := if ItemCall(job, item).None? then d.numUnready else d.numUnready + 1;
    || (t == AfterItem(job, s, item) && e == Proceed(d.worklist, d.todo - {turn.pick}, n))
    || (!turn.fate.Served? && e.Returned? && !e.ok && e.worklist == d.worklist
        && (t == s || t == AfterItem(job, s, item)))
  }

  /** Whatever holds of the server and the remaining keys in both cases holds after the turn. */
  lemma ShapedKeeps(inv: (Server, set<string>) -> bool, job: Job, s: Server, d: Deploy, turn: Turn,
                    t: Server, e: Deploy)
    requires d.Working? && turn.pick in d.todo && turn.pick in d.worklist && Shape(job, s, d, turn, t, e)
    requires ItemCall(job, d.worklist[turn.pick]).None? ==> AfterItem(job, s, d.worklist[turn.pick]) == s
    requires var t' := AfterItem(job, s, d.worklist[turn.pick]);
             inv(s, {}) && inv(t', d.todo - {turn.pick}) && inv(t', {})
    ensures inv(t, Todo(e)) && !e.Listing? && e.worklist == d.worklist
    ensures Clean(e) ==> Clean(d) && t == s
    ensures t == s || t == AfterItem(job, s, d.worklist[turn.pick])
    ensures turn.fate.Served? ==>
              && t == AfterItem(job, s, d.worklist[turn.pick]) && Todo(e) == d.todo - {turn.pick}
              && (e.Returned? ==> e.err == NoError)
  {
  }

  lemma LoopTurn(c: Config, n: string, job: Job, s0: Server, s: Server, w: Worklist, d: Deploy, turn: Turn)
    requires ProjectJob(c, n, job) && Looping(c, n, job, s0, s, w, d)
    ensures var (t, e) := RoundStep(job, s, d, turn);
            && Looping(c, n, job, s0, t, w, e) && t.projects == s.projects && (Clean(e) ==> Clean(d) && t == s)
            && (turn.fate.Served? && AllCloser(c, n, job, s0, s, w, Todo(d))
                ==> AllCloser(c, n, job, s0, t, w, Todo(e)))
            && (turn.fate.Served? && (d.Returned? ==> d.err == NoError) ==> (e.Returned? ==> e.err == NoError))
  {
    hide WorkKey, Belongs, JobFor;
    if d.Working? && turn.pick in d.todo {
      var (t, e) := RoundStep(job, s, d, turn);
      var t' := AfterItem(job, s, w[turn.pick]);
      TurnHandled(c, n, job, s0, s, w, d.todo, turn.pick);
      TurnShape(job, s, d, turn);
      TurnCounted(job, s, d, turn);
      LoopWeaken(c, n, job, s0, s, w, d.todo, {});
      LoopWeaken(c, n, job, s0, t', w, d.todo - {turn.pick}, {});
      ShapedKeeps((x: Server, k: set<string>) => LoopOk(c, n, job, s0, x, w, k), job, s, d, turn, t, e);
    }
  }

  lemma TurnServerOk(s: Server, job: Job, item: Item)
    requires ServerOk(s)
    ensures ItemCall(job, item).Some? ==> ServerOk(Apply(s, ItemCall(job, item).value).0)
  {
    if ItemCall(job, item).Some? {
      ApplyOk(s, ItemCall(job, item).value);
    }
  }

  lemma TurnCounted(job: Job, s: Server, d: Deploy, turn: Turn)
    requires d.Working? && Counted(job, d)
    ensures Counted(job, RoundStep(job, s, d, turn).1)
  {
    match DeployCall(job, d, turn.pick)
    case None => StepCounted(job, d, turn.pick, Accepted);
    case Some(call) => StepCounted(job, d, turn.pick, Serve(s, call, turn.fate).1);
  }

  /** Either way, the item is handled. */
  lemma ServedTurn(c: Config, n: string, job: Job, s: Server, x: string, item: Item)
    requires ProjectJob(c, n, job) && Calm(c, n, job, s) && Reflects(c, n, job, s, x, item)
    ensures match ItemCall(job, item)
            case None => Handled(c, n, job, s, s, x, ItemKey(item)) && ItemProgress(job, item, Accepted) == Settled
            case Some(call) => Handled(c, n, job, s, Apply(s, call).0, x, ItemKey(item))
                               && ItemProgress(job, item, Apply(s, call).1) == Unsettled
  {
    if ItemCall(job, item).None? {
      NoCallHandled(c, n, job, s, x, item);
    } else {
      CallHandled(c, n, job, s, x, item);
    }
  }

  // ---- Whole rounds -------------------------------------------------------------------------

  /** Induction over the turns of a round. */
  lemma {:induction false} RoundKeeps(inv: (Server, Deploy) -> bool, job: Job, s: Server, d: Deploy, turns: seq<Turn>,
                                      served: bool)
    requires inv(s, d) && (served ==> AllServed(turns))
    requires forall x: Server, y: Deploy, turn: Turn {:trigger RoundStep(job, x, y, turn)} | inv(x, y)
             && (served ==> turn.fate.Served?) ::
               inv(RoundStep(job, x, y, turn).0, RoundStep(job, x, y, turn).1)
    ensures inv(Round(job, s, d, turns).0, Round(job, s, d, turns).1)
    decreases |turns|
  {
    if turns != [] {
      var (t, e) := RoundStep(job, s, d, turns[0]);
      RoundKeeps(inv, job, t, e, turns[1..], served);
    }
  }

  ghost predicate SmoothLoop(c: Config, n: string, job: Job, s0: Server, s: Server, w: Worklist, d: Deploy,
                             served: bool) {
    && InLoop(c, n, job, s0, s, w, d)
    && (served ==> AllCloser(c, n, job, s0, s, w, Todo(d)) && (d.Returned? ==> d.err == NoError))
  }

  lemma SmoothTurn(c: Config, n: string, job: Job, s0: Server, s: Server, w: Worklist, d: Deploy, turn: Turn,
                   served: bool)
    requires ProjectJob(c, n, job) && SmoothLoop(c, n, job, s0, s, w, d, served) && (served ==> turn.fate.Served?)
    ensures var (t, e) := RoundStep(job, s, d, turn); SmoothLoop(c, n, job, s0, t, w, e, served)
  {
    hide WorkKey, Build, LoopOk, RoundStep;
    LoopTurn(c, n, job, s0, s, w, d, turn);
  }

  lemma LoopRound(c: Config, n: string, job: Job, s0: Server, w: Worklist, d: Deploy, turns: seq<Turn>)
    requires ProjectJob(c, n, job) && SmoothLoop(c, n, job, s0, s0, w, d, AllServed(turns))
    ensures var (t, e) := Round(job, s0, d, turns); SmoothLoop(c, n, job, s0, t, w, e, AllServed(turns))
  {
    hide WorkKey, Build, InLoop, LoopOk, Looping;
    var served := AllServed(turns);
    var inv := (x: Server, y: Deploy) => SmoothLoop(c, n, job, s0, x, w, y, served);
    forall x: Server, y: Deploy, turn: Turn | inv(x, y) && (served ==> turn.fate.Served?)
      ensures inv(RoundStep(job, x, y, turn).0, RoundStep(job, x, y, turn).1)
    {
      SmoothTurn(c, n, job, s0, x, w, y, turn, served);
    }
    RoundKeeps(inv, job, s0, d, turns, served);
  }

  /** No gap of the project's keys has grown. */
  ghost predicate NoWorse(c: Config, n: string, job: Job, s: Server, t: Server) {
    forall k: Key | Belongs(c, n, k) :: Gap(c, n, job, t, k) <= Gap(c, n, job, s, k)
  }

  /** Every gap of the project's keys has shrunk or is closed. */
  ghost predicate AllShrunk(c: Config, n: string, job: Job, s: Server, t: Server) {
    forall k: Key | Belongs(c, n, k) :: Gap(c, n, job, t, k) == 0 || Gap(c, n, job, t, k) < Gap(c, n, job, s, k)
  }

  /** What a round has done by the time it returns. */
  ghost predicate RoundOk(c: Config, n: string, job: Job, s: Server, t: Server, d: Deploy, served: bool)
    requires d.Returned?
  {
    && (d.ok ==> d.err == NoError && t == s)
    && (d.err == NoError ==> (d.ok <==> Rank(c, n, job, s) == 0))
    && (served ==> d.err == NoError && AllShrunk(c, n, job, s, t))
  }

  lemma GapByItem(c: Config, n: string, job: Job, s0: Server, s: Server, w: Worklist, k: Key)
    requires ProjectJob(c, n, job) && LoopOk(c, n, job, s0, s, w, {}) && Belongs(c, n, k)
    ensures Gap(c, n, job, s, k) <= Gap(c, n, job, s0, k)
    ensures WorkKey(k) in w ==> ItemKey(w[WorkKey(k)]) == k
    ensures WorkKey(k) !in w ==> Gap(c, n, job, s, k) == 0
  {
    hide WorkKey, Build;
    BelongsAddressable(c, n, k);
    if WorkKey(k) in w {
      WorkKeyInjective(k, ItemKey(w[WorkKey(k)]));
    }
  }

  /** Whenever the loop is left, the project's objects are fit for another round and no gap has grown. */
  ghost predicate Safe(c: Config, n: string, job: Job, s: Server, t: Server) {
    Calm(c, n, job, t) && t.projects == s.projects && NoWorse(c, n, job, s, t)
  }

  lemma LoopSafe(c: Config, n: string, job: Job, s0: Server, s: Server, w: Worklist, d: Deploy)
    requires ProjectJob(c, n, job) && InLoop(c, n, job, s0, s, w, d)
    ensures Safe(c, n, job, s0, s)
  {
    LoopNoWorse(c, n, job, s0, s, w, Todo(d));
  }

  lemma LoopNoWorse(c: Config, n: string, job: Job, s0: Server, s: Server, w: Worklist, todo: set<string>)
    requires ProjectJob(c, n, job) && LoopOk(c, n, job, s0, s, w, todo)
    ensures NoWorse(c, n, job, s0, s)
  {
    LoopWeaken(c, n, job, s0, s, w, todo, {});
    forall k: Key | Belongs(c, n, k) ensures Gap(c, n, job, s, k) <= Gap(c, n, job, s0, k) {
      GapByItem(c, n, job, s0, s, w, k);
    }
  }

  lemma LoopShrinks(c: Config, n: string, job: Job, s0: Server, s: Server, w: Worklist)
    requires ProjectJob(c, n, job) && LoopOk(c, n, job, s0, s, w, {}) && AllCloser(c, n, job, s0, s, w, {})
    ensures AllShrunk(c, n, job, s0, s)
  {
    hide WorkKey, Build;
    LoopEnd(c, n, job, s0, s, w);
    forall k: Key | Belongs(c, n, k)
      ensures Gap(c, n, job, s, k) == 0 || Gap(c, n, job, s, k) < Gap(c, n, job, s0, k)
    {
      GapByItem(c, n, job, s0, s, w, k);
    }
  }

  lemma LoopResult(c: Config, n: string, job: Job, s0: Server, s: Server, w: Worklist, d: Deploy, served: bool)
    requires ProjectJob(c, n, job) && Calm(c, n, job, s0) && LoopOk(c, n, job, s0, s0, w, {})
    requires InLoop(c, n, job, s0, s, w, d) && d.Returned?
    requires served ==> d.err == NoError && AllCloser(c, n, job, s0, s, w, {})
    ensures RoundOk(c, n, job, s0, s, d, served)
  {
    RankByItems(c, n, job, s0, w);
    if served {
      LoopShrinks(c, n, job, s0, s, w);
    }
  }

  ghost predicate NoGap(c: Config, n: string, job: Job, s: Server) {
    forall k: Key | Belongs(c, n, k) :: Gap(c, n, job, s, k) == 0
  }

  lemma RankZero(c: Config, n: string, job: Job, s: Server)
    ensures Rank(c, n, job, s) == 0 <==> NoGap(c, n, job, s)
  {
    assert Belongs(c, n, NamespaceKeyOf(c, n)) && Belongs(c, n, AdminKey(c, n));
    assert Belongs(c, n, ViewerKey(c, n)) && Belongs(c, n, ViewKey(n));
  }

  lemma ItemGap(c: Config, n: string, job: Job, s: Server, w: Worklist, x: string)
    requires ProjectJob(c, n, job) && Calm(c, n, job, s) && LoopOk(c, n, job, s, s, w, {}) && x in w
    ensures Matches(job, w[x]) <==> Gap(c, n, job, s, ItemKey(w[x])) == 0
  {
    NoCallInSync(c, n, job, s, x, w[x]);
  }

  /** The worklist matches throughout iff no key has a gap. */
  lemma RankByItems(c: Config, n: string, job: Job, s: Server, w: Worklist)
    requires ProjectJob(c, n, job) && Calm(c, n, job, s) && LoopOk(c, n, job, s, s, w, {})
    ensures AllMatch(job, w) <==> Rank(c, n, job, s) == 0
  {
    RankZero(c, n, job, s);
    if AllMatch(job, w) {
      forall k: Key | Belongs(c, n, k) ensures Gap(c, n, job, s, k) == 0 {
        GapByItem(c, n, job, s, s, w, k);
        if WorkKey(k) in w {
          ItemGap(c, n, job, s, w, WorkKey(k));
        }
      }
    }
    if NoGap(c, n, job, s) {
      forall x | x in w ensures Matches(job, w[x]) {
        ItemGap(c, n, job, s, w, x);
      }
    }
  }

  lemma ListCall(job: Job, s: Server, d: Deploy, turn: Turn)
    requires job.managed == Managed && job.ownerKey == LabelKeyOwner && d.Listing? && d.next < 3
    ensures var (t, e) := RoundStep(job, s, d, turn);
            var w := Merge(d.worklist, ListReply(s, Managed[d.next], job.owner));
            && t == s
            && (!turn.fate.Served? ==> e == Returned(false, Error(turn.fate.text), d.worklist))
            && (turn.fate.Served? ==> e == if d.next + 1 < 3 then Listing(d.next + 1, w) else AfterListing(job, w))
  {
  }

  /** A list turn fails, goes on to the next kind, or completes the listing. */
  ghost predicate ListedBy(job: Job, s: Server, d: Deploy, e: Deploy, served: bool) {
    || (!served && e.Returned? && !e.ok && e.err != NoError)
    || (served && e.Listing? && e.next < 3 && ListingOk(s, job.owner, e))
    || (served && exists w :: e == AfterListing(job, w) && ListingOk(s, job.owner, Listing(3, w)))
  }

  lemma ListTurn(job: Job, s: Server, d: Deploy, turn: Turn)
    requires job.managed == Managed && job.ownerKey == LabelKeyOwner && ServerOk(s) && d.Listing? && d.next < 3
             && ListingOk(s, job.owner, d)
    ensures RoundStep(job, s, d, turn).0 == s && ListedBy(job, s, d, RoundStep(job, s, d, turn).1, turn.fate.Served?)
  {
    ListCall(job, s, d, turn);
    ListingStep(job, s, d);
    var w := Merge(d.worklist, ListReply(s, Managed[d.next], job.owner));
    assert ListingOk(s, job.owner, Listing(d.next + 1, w));
  }

  lemma {:induction false} FullRound(c: Config, n: string, job: Job, s: Server, d: Deploy, turns: seq<Turn>)
    requires ProjectJob(c, n, job) && Calm(c, n, job, s)
    requires d.Listing? && d.next < 3 && ListingOk(s, job.owner, d)
    ensures var (t, e) := Round(job, s, d, turns);
            Safe(c, n, job, s, t) && (e.Returned? ==> RoundOk(c, n, job, s, t, e, AllServed(turns)))
    decreases |turns|
  {
    if turns != [] {
      ListTurn(job, s, d, turns[0]);
      var e := RoundStep(job, s, d, turns[0]).1;
      assert AllServed(turns) ==> turns[0].fate.Served? && AllServed(turns[1..]);
      if !turns[0].fate.Served? {
        RoundReturned(job, s, e, turns[1..]);
      } else if e.Listing? && e.next < 3 && ListingOk(s, job.owner, e) {
        FullRound(c, n, job, s, e, turns[1..]);
      } else {
        var w :| e == AfterListing(job, w) && ListingOk(s, job.owner, Listing(3, w));
        LoopFromListing(c, n, job, s, w, turns[1..]);
      }
    }
  }

  lemma {:induction false} RoundReturned(job: Job, s: Server, d: Deploy, turns: seq<Turn>)
    requires d.Returned?
    ensures Round(job, s, d, turns) == (s, d)
    decreases |turns|
  {
    if turns != [] {
      RoundReturned(job, s, d, turns[1..]);
    }
  }

  lemma LoopStarted(c: Config, n: string, job: Job, s: Server, listed: Worklist)
    requires FirstObjection(job, |job.objects|).None? && Joined(job, listed, |job.objects|) != map[]
    requires Calm(c, n, job, s)
    ensures var w := Joined(job, listed, |job.objects|);
            AfterListing(job, listed) == Working(w, w.Keys, 0) && AllCloser(c, n, job, s, s, w, w.Keys)
  {
    hide WorkKey, Build;
  }

  lemma LoopFromListing(c: Config, n: string, job: Job, s: Server, listed: Worklist, turns: seq<Turn>)
    requires ProjectJob(c, n, job) && Calm(c, n, job, s) && ListingOk(s, job.owner, Listing(3, listed))
    ensures var (t, e) := Round(job, s, AfterListing(job, listed), turns);
            Safe(c, n, job, s, t) && (e.Returned? ==> RoundOk(c, n, job, s, t, e, AllServed(turns)))
  {
    hide WorkKey, Build, LoopOk, RoundStep;
    var w := Joined(job, listed, |job.objects|);
    LoopStart(c, n, job, s, listed);
    LoopStarted(c, n, job, s, listed);
    AfterListingCounted(job, listed);
    assert AfterListing(job, listed) == Working(w, w.Keys, 0);
    LoopRound(c, n, job, s, w, Working(w, w.Keys, 0), turns);
    LoopWeaken(c, n, job, s, s, w, w.Keys, {});
    var (t, e) := Round(job, s, Working(w, w.Keys, 0), turns);
    LoopSafe(c, n, job, s, t, w, e);
    if e.Returned? {
      LoopResult(c, n, job, s, t, w, e, AllServed(turns));
    }
  }

  // ---- Main results -------------------------------------------------------------------------

  /** A round for a project that is not being deleted, with every call served and nothing in the way,
      succeeds; it answers true iff nothing had a gap, and then it has changed nothing; otherwise every
      gap shrinks, and so does the rank: for every processing order. */
  lemma RoundConverges(c: Config, p: Project, s: Server, turns: seq<Turn>)
    requires c.namespacePrefix != "" && !p.deleting && Calm(c, p.name, JobFor(c, p), s) && AllServed(turns)
    requires Round(JobFor(c, p), s, Start(JobFor(c, p)), turns).1.Returned?
    ensures var job := JobFor(c, p);
            var (t, d) := Round(job, s, Start(job), turns);
            && d.err == NoError && Calm(c, p.name, job, t) && t.projects == s.projects
            && (d.ok <==> Rank(c, p.name, job, s) == 0) && (d.ok ==> t == s)
            && AllShrunk(c, p.name, job, s, t)
            && (!d.ok ==> Rank(c, p.name, job, t) < Rank(c, p.name, job, s))
  {
    var job := JobFor(c, p);
    BuildIsProjectJob(c, p);
    FullRound(c, p.name, job, s, Start(job), turns);
    RankShrinks(c, p.name, job, s, Round(job, s, Start(job), turns).0);
  }

  lemma RankShrinks(c: Config, n: string, job: Job, s: Server, t: Server)
    requires AllShrunk(c, n, job, s, t)
    ensures Rank(c, n, job, t) == 0 || Rank(c, n, job, t) < Rank(c, n, job, s)
  {
    hide WorkKey, Build;
    var keys := [NamespaceKeyOf(c, n), AdminKey(c, n), ViewerKey(c, n), ViewKey(n)];
    forall i | 0 <= i < 4
      ensures Gap(c, n, job, t, keys[i]) == 0 || Gap(c, n, job, t, keys[i]) < Gap(c, n, job, s, keys[i])
    {
      assert Belongs(c, n, keys[i]);
    }
  }

  /** Two undisturbed rounds, in whatever orders, bring everything in sync; the third at the latest
      answers true. */
  lemma ThirdRoundIsOk(c: Config, p: Project, s: Server, first: seq<Turn>, second: seq<Turn>, third: seq<Turn>)
    requires c.namespacePrefix != "" && !p.deleting && Calm(c, p.name, JobFor(c, p), s)
    requires AllServed(first) && AllServed(second) && AllServed(third)
    requires var job := JobFor(c, p);
             var (s1, d1) := Round(job, s, Start(job), first);
             var (s2, d2) := Round(job, s1, Start(job), second);
             d1.Returned? && d2.Returned? && Round(job, s2, Start(job), third).1.Returned?
    ensures var job := JobFor(c, p);
            var s1 := Round(job, s, Start(job), first).0;
            var s2 := Round(job, s1, Start(job), second).0;
            var (s3, d3) := Round(job, s2, Start(job), third);
            s3 == s2 && d3.Returned? && d3.ok && d3.err == NoError
  {
    var job := JobFor(c, p);
    var s1 := Round(job, s, Start(job), first).0;
    var s2 := Round(job, s1, Start(job), second).0;
    RoundConverges(c, p, s, first);
    RoundConverges(c, p, s1, second);
    RoundConverges(c, p, s2, third);
    TwiceShrunk(c, p.name, job, s, s1, s2);
  }

  lemma TwiceShrunk(c: Config, n: string, job: Job, s: Server, s1: Server, s2: Server)
    requires AllShrunk(c, n, job, s, s1) && AllShrunk(c, n, job, s1, s2)
    ensures Rank(c, n, job, s2) == 0
  {
    forall k: Key | Belongs(c, n, k) ensures Gap(c, n, job, s2, k) == 0 {
      GapAtMostTwo(c, n, job, s, k);
    }
    RankZero(c, n, job, s2);
  }

  lemma GapAtMostTwo(c: Config, n: string, job: Job, s: Server, k: Key)
    ensures Gap(c, n, job, s, k) <= 2
  {
  }

  /** Partial failure is safe: however the calls of a round fare, and wherever it is cut short, no gap
      has grown and the project's objects are still in a state from which rounds converge. */
  lemma AbortedRoundIsSafe(c: Config, p: Project, s: Server, turns: seq<Turn>)
    requires c.namespacePrefix != "" && !p.deleting && Calm(c, p.name, JobFor(c, p), s)
    ensures var job := JobFor(c, p);
            var t := Round(job, s, Start(job), turns).0;
            Calm(c, p.name, job, t) && NoWorse(c, p.name, job, s, t)
              && Rank(c, p.name, job, t) <= Rank(c, p.name, job, s)
  {
    var job := JobFor(c, p);
    BuildIsProjectJob(c, p);
    FullRound(c, p.name, job, s, Start(job), turns);
    RankNoWorse(c, p.name, job, s, Round(job, s, Start(job), turns).0);
  }

  lemma RankNoWorse(c: Config, n: string, job: Job, s: Server, t: Server)
    requires NoWorse(c, n, job, s, t)
    ensures Rank(c, n, job, t) <= Rank(c, n, job, s)
  {
    hide WorkKey, Build;
    var keys := [NamespaceKeyOf(c, n), AdminKey(c, n), ViewerKey(c, n), ViewKey(n)];
    forall i | 0 <= i < 4 ensures Gap(c, n, job, t, keys[i]) <= Gap(c, n, job, s, keys[i]) {
      assert Belongs(c, n, keys[i]);
    }
  }
}
