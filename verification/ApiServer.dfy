/** A model of the Kubernetes API server: projects and objects with resource versions, finalizers,
    deletion marks and namespaces, the calls the operator makes, and everything other clients and
    controllers may do in between. */
module ApiServer {
  import opened Kubernetes

  /** issued maps every UID ever given out to the name of the project it was given to. */
  datatype Server = Server(
    projects: map<string, Project>, objects: map<Address, Stored>,
    revision: nat, issued: map<string, string>)

  datatype Call =
    | GetProject(name: string)
    | UpdateProject(project: Project)
    | UpdateStatus(project: Project)
    | List(kind: Kind, labelKey: string, owner: string)
    | Create(obj: Stored)
    | Delete(key: Key, revision: nat)
    | Update(obj: Stored)

  datatype Reply =
    | Accepted
    | GotProject(project: Project)
    | Listed(items: map<Address, Stored>)
    | NotFound
    | Failed(text: string)

  function ErrorOf(r: Reply): Error {
    match r
    case NotFound => Error("not found")
    case Failed(text) => Error(text)
    case _ => NoError
  }

  /** client.IgnoreNotFound */
  function IgnoreNotFound(r: Reply): Error {
    if r.NotFound? then NoError else ErrorOf(r)
  }

  function OwnerOf(o: Stored): Option<string> {
    if LabelKeyOwner in o.labels then Some(o.labels[LabelKeyOwner]) else None
  }

  /** The finalizer with which the namespace controller holds every namespace. */
  const NamespaceFinalizer := "kubernetes"

  function NamespaceKey(namespace: string): Address {
    Key(Namespace, "", namespace)
  }

  /** Stores a project under a fresh resource version, or drops it once it is marked for deletion
      and no finalizer is left. */
  function PutProject(s: Server, p: Project): Server {
    s.(revision := s.revision + 1,
       projects := if p.deleting && p.finalizers == {} then s.projects - {p.name}
                   else s.projects[p.name := p.(resourceVersion := s.revision + 1)])
  }

  /** The same for objects. */
  function PutObject(s: Server, k: Address, o: Stored): Server {
    s.(revision := s.revision + 1,
       objects := if o.terminating && o.finalizers == {} then s.objects - {k}
                  else s.objects[k := o.(key := k, resourceVersion := s.revision + 1)])
  }

  /** The role of an existing binding is immutable. */
  predicate SameRole(a: Body, b: Body) {
    a.Binding? && b.Binding? ==> a.role == b.role
  }

  // ---- Calls --------------------------------------------------------------------------------

  function Edited(q: Project, annotations: map<string, string>, finalizers: set<string>, spec: Spec): Project {
    q.(annotations := annotations, finalizers := finalizers, spec := spec,
       generation := if spec == q.spec then q.generation else q.generation + 1)
  }

  function Born(o: Stored): Stored {
    o.(terminating := false, verdict := Verdict.Current,
       finalizers := if o.key.kind.Namespace? then {NamespaceFinalizer} else {})
  }

  /** A full replacement: metadata finalizers go, the hold of the namespace controller stays. */
  function Replaced(was: Stored, o: Stored): Stored {
    was.(labels := o.labels, annotations := o.annotations, body := o.body,
         finalizers := if was.key.kind.Namespace? then was.finalizers * {NamespaceFinalizer} else {})
  }

  predicate UpToDate(s: Server, p: Project) {
    && p.name in s.projects
    && s.projects[p.name].uid == p.uid && s.projects[p.name].resourceVersion == p.resourceVersion
  }

  function ApplyUpdateProject(s: Server, p: Project): (Server, Reply) {
    if p.name !in s.projects then (s, NotFound)
    else if !UpToDate(s, p) then (s, Failed("the object has been modified"))
    else
      var r := Edited(s.projects[p.name], p.annotations, p.finalizers, p.spec);
      (PutProject(s, r), GotProject(r.(resourceVersion := s.revision + 1)))
  }

  function ApplyUpdateStatus(s: Server, p: Project): (Server, Reply) {
    if p.name !in s.projects then (s, NotFound)
    else if !UpToDate(s, p) then (s, Failed("the object has been modified"))
    else (PutProject(s, s.projects[p.name].(status := p.status)), Accepted)
  }

  function ApplyCreate(s: Server, o: Stored): (Server, Reply) {
    if !Addressable(o.key) then (s, Failed("invalid"))
    else
      var k: Address := o.key;
      var ns := NamespaceKey(k.namespace);
      if k.kind.Namespaced() && ns !in s.objects then (s, NotFound)
      else if k.kind.Namespaced() && s.objects[ns].terminating then (s, Failed("namespace is being terminated"))
      else if k in s.objects then (s, Failed("already exists"))
      else
        (PutObject(s, k, Born(o)), Accepted)
  }

  /** A delete call with a resource version precondition. */
  function ApplyDelete(s: Server, k: Key, revision: nat): (Server, Reply) {
    if !Addressable(k) || k !in s.objects then (s, NotFound)
    else
      var a: Address := k;
      if s.objects[a].resourceVersion != revision then (s, Failed("precondition failed"))
      else if s.objects[a].terminating then (s, Accepted)
      else (PutObject(s, a, s.objects[a].(terminating := true)), Accepted)
  }

  /** A full replacement under an optimistic lock. */
  function ApplyUpdate(s: Server, o: Stored): (Server, Reply) {
    if !Addressable(o.key) || o.key !in s.objects then (s, NotFound)
    else
      var k: Address := o.key;
      var was := s.objects[k];
      if was.resourceVersion != o.resourceVersion then (s, Failed("the object has been modified"))
      else if !SameRole(was.body, o.body) then (s, Failed("cannot change roleRef"))
      else (PutObject(s, k, Replaced(was, o)), Accepted)
  }

  function Apply(s: Server, call: Call): (Server, Reply) {
    match call
    case GetProject(n) => (s, if n in s.projects then GotProject(s.projects[n]) else NotFound)
    case UpdateProject(p) => ApplyUpdateProject(s, p)
    case UpdateStatus(p) => ApplyUpdateStatus(s, p)
    case List(kind, key, owner) =>
      (s, Listed(map k | k in s.objects && k.kind == kind
                       && key in s.objects[k].labels && s.objects[k].labels[key] == owner :: s.objects[k]))
    case Create(o) => ApplyCreate(s, o)
    case Delete(k, revision) => ApplyDelete(s, k, revision)
    case Update(o) => ApplyUpdate(s, o)
  }

  /** What becomes of a call: served, served with the reply lost on the way, or never served. */
  datatype Fate = Served | Lost(text: string) | Dropped(text: string)

  function Serve(s: Server, call: Call, fate: Fate): (Server, Reply) {
    match fate
    case Served => Apply(s, call)
    case Lost(text) => (Apply(s, call).0, Failed(text))
    case Dropped(text) => (s, Failed(text))
  }

  // ---- Everybody else -----------------------------------------------------------------------

  /** What users, other controllers and garbage collection do. Disabled actions change nothing. */
  datatype Action =
    | CreateProject(project: Project)
    | EditProject(name: string, annotations: map<string, string>, finalizers: set<string>, spec: Spec)
    | DeleteProject(name: string)
    | WriteObject(obj: Stored)
    | RemoveObject(key: Address)

  /** Others may change a project's finalizers, but not take away the operator's, nor add any once
      the project is marked for deletion. */
  predicate MayEdit(p: Project, finalizers: set<string>) {
    && (ProjectFinalizer in p.finalizers ==> ProjectFinalizer in finalizers)
    && (p.deleting ==> finalizers <= p.finalizers)
  }

  /** Others may create and change any object, except that they never set the owner label to a value
      the object does not carry already; a deletion mark, a role reference and the hold of the
      namespace controller are beyond them, too. */
  predicate MayWrite(s: Server, o: Stored) {
    && Addressable(o.key)
    && (o.key.kind.Namespaced() ==> NamespaceKey(o.key.namespace) in s.objects)
    && (o.key.kind.Namespace? ==> NamespaceFinalizer in o.finalizers)
    && (o.key in s.objects ==> SameRole(s.objects[o.key].body, o.body)
                               && (s.objects[o.key].terminating ==> o.terminating))
    && (OwnerOf(o).Some? ==> o.key in s.objects && OwnerOf(s.objects[o.key]) == OwnerOf(o))
  }

  /** A namespace goes only after its contents. */
  predicate MayRemove(s: Server, k: Address) {
    && k in s.objects
    && (k.kind.Namespace? ==> forall j | j in s.objects :: j.kind.Namespaced() ==> j.namespace != k.name)
  }

  function Act(s: Server, a: Action): Server {
    match a
    case CreateProject(p) =>
      if p.name in s.projects || p.uid in s.issued then s
      else PutProject(s.(issued := s.issued[p.uid := p.name]),
                      p.(generation := 1, deleting := false, status := FreshStatus))
    case EditProject(n, annotations, finalizers, spec) =>
      if n !in s.projects || !MayEdit(s.projects[n], finalizers) then s
      else PutProject(s, Edited(s.projects[n], annotations, finalizers, spec))
    case DeleteProject(n) =>
      if n !in s.projects || s.projects[n].deleting then s
      else PutProject(s, s.projects[n].(deleting := true, generation := s.projects[n].generation + 1))
    case WriteObject(o) =>
      if MayWrite(s, o) then PutObject(s, o.key, o) else s
    case RemoveObject(k) =>
      if MayRemove(s, k) then s.(revision := s.revision + 1, objects := s.objects - {k}) else s
  }

  // ---- What the server keeps ----------------------------------------------------------------

  predicate ProjectsOk(s: Server) {
    forall n | n in s.projects ::
      var p := s.projects[n];
      && p.name == n && p.resourceVersion <= s.revision
      && p.uid in s.issued && s.issued[p.uid] == n
      && (p.deleting ==> p.finalizers != {}) && p.generation >= 1
  }

  predicate ObjectsOk(s: Server) {
    forall k | k in s.objects ::
      var o := s.objects[k];
      && o.key == k && o.resourceVersion <= s.revision
      && (k.kind.Namespace? ==> NamespaceFinalizer in o.finalizers)
      && (k.kind.Namespaced() ==> NamespaceKey(k.namespace) in s.objects)
  }

  predicate ServerOk(s: Server) {
    ProjectsOk(s) && ObjectsOk(s)
  }

  lemma PutProjectOk(s: Server, p: Project)
    requires ServerOk(s) && p.uid in s.issued && s.issued[p.uid] == p.name && p.generation >= 1
    ensures ServerOk(PutProject(s, p))
  {
    var t := PutProject(s, p);
    assert t.objects == s.objects;
    assert forall n | n in t.projects && n != p.name :: t.projects[n] == s.projects[n];
  }

  lemma PutObjectOk(s: Server, k: Address, o: Stored)
    requires ServerOk(s)
    requires k.kind.Namespace? ==> NamespaceFinalizer in o.finalizers
    requires k.kind.Namespaced() ==> NamespaceKey(k.namespace) in s.objects
    ensures ServerOk(PutObject(s, k, o))
  {
    var t := PutObject(s, k, o);
    assert t.projects == s.projects;
    forall j | j in t.objects && j.kind.Namespaced()
      ensures NamespaceKey(j.namespace) in t.objects
    {
      assert NamespaceKey(j.namespace) in s.objects;
    }
  }

  /** Every action of the others keeps the server's own invariants. */
  lemma ActOk(s: Server, a: Action)
    requires ServerOk(s)
    ensures ServerOk(Act(s, a))
  {
    match a
    case CreateProject(p) =>
      if Act(s, a) != s {
        var s1 := s.(issued := s.issued[p.uid := p.name]);
        assert ServerOk(s1);
        PutProjectOk(s1, p.(generation := 1, deleting := false, status := FreshStatus));
      }
    case EditProject(n, annotations, finalizers, spec) =>
      if Act(s, a) != s {
        PutProjectOk(s, Edited(s.projects[n], annotations, finalizers, spec));
      }
    case DeleteProject(n) =>
      if Act(s, a) != s {
        PutProjectOk(s, s.projects[n].(deleting := true, generation := s.projects[n].generation + 1));
      }
    case WriteObject(o) =>
      if MayWrite(s, o) {
        PutObjectOk(s, o.key, o);
      }
    case RemoveObject(k) =>
      if MayRemove(s, k) {
        var t := Act(s, a);
        forall j | j in t.objects && j.kind.Namespaced()
          ensures NamespaceKey(j.namespace) in t.objects
        {
          assert NamespaceKey(j.namespace) in s.objects;
        }
      }
  }

  /** Every call of the operator keeps them, too. */
  lemma ApplyOk(s: Server, call: Call)
    requires ServerOk(s)
    ensures ServerOk(Apply(s, call).0)
  {
    match call
    case UpdateProject(p) =>
      if Apply(s, call).0 != s {
        PutProjectOk(s, Edited(s.projects[p.name], p.annotations, p.finalizers, p.spec));
      }
    case UpdateStatus(p) =>
      if Apply(s, call).0 != s {
        PutProjectOk(s, s.projects[p.name].(status := p.status));
      }
    case Create(o) =>
      if Apply(s, call).0 != s {
        PutObjectOk(s, o.key, Born(o));
      }
    case Delete(k, revision) =>
      if Apply(s, call).0 != s {
        PutObjectOk(s, k, s.objects[k].(terminating := true));
      }
    case Update(o) =>
      if Apply(s, call).0 != s {
        PutObjectOk(s, o.key, Replaced(s.objects[o.key], o));
      }
    case GetProject(_) =>
    case List(_, _, _) =>
  }

  // ---- How any step may move the server -----------------------------------------------------

  /** Versions move forward: whatever is not exactly as before carries a resource version never seen
      before, and UIDs stay with their names. */
  ghost predicate Moves(s: Server, t: Server) {
    && s.revision <= t.revision
    && (forall n | n in t.projects ::
          (n in s.projects && t.projects[n] == s.projects[n]) || t.projects[n].resourceVersion > s.revision)
    && (forall k | k in t.objects ::
          (k in s.objects && t.objects[k] == s.objects[k]) || t.objects[k].resourceVersion > s.revision)
    && (forall u | u in s.issued :: u in t.issued && t.issued[u] == s.issued[u])
  }

  /** A project that carries the operator's finalizer stays, keeps it, and is never undeleted. */
  ghost predicate Keeps(s: Server, t: Server, n: string) {
    n in s.projects && ProjectFinalizer in s.projects[n].finalizers ==>
      && n in t.projects && ProjectFinalizer in t.projects[n].finalizers
      && t.projects[n].uid == s.projects[n].uid
      && (s.projects[n].deleting ==> t.projects[n].deleting)
  }

  /** No object becomes owned by u. */
  ghost predicate NoneGained(s: Server, t: Server, u: string) {
    forall k | k in t.objects && OwnerOf(t.objects[k]) == Some(u) ::
      k in s.objects && OwnerOf(s.objects[k]) == Some(u)
  }

  lemma PutProjectMoves(s: Server, p: Project)
    ensures Moves(s, PutProject(s, p))
  {
  }

  lemma PutObjectMoves(s: Server, k: Address, o: Stored)
    ensures Moves(s, PutObject(s, k, o))
  {
  }

  lemma ActMoves(s: Server, a: Action)
    ensures Moves(s, Act(s, a))
  {
    match a
    case CreateProject(p) =>
      PutProjectMoves(s.(issued := s.issued[p.uid := p.name]),
                      p.(generation := 1, deleting := false, status := FreshStatus));
    case EditProject(n, annotations, finalizers, spec) =>
      if n in s.projects {
        PutProjectMoves(s, Edited(s.projects[n], annotations, finalizers, spec));
      }
    case DeleteProject(n) =>
      if n in s.projects {
        PutProjectMoves(s, s.projects[n].(deleting := true, generation := s.projects[n].generation + 1));
      }
    case WriteObject(o) =>
      if MayWrite(s, o) {
        PutObjectMoves(s, o.key, o);
      }
    case RemoveObject(k) =>
  }

  lemma ApplyMoves(s: Server, call: Call)
    ensures Moves(s, Apply(s, call).0)
  {
    if Apply(s, call).0 != s {
      match call
      case UpdateProject(p) =>
        PutProjectMoves(s, Edited(s.projects[p.name], p.annotations, p.finalizers, p.spec));
      case UpdateStatus(p) =>
        PutProjectMoves(s, s.projects[p.name].(status := p.status));
      case Create(o) =>
        PutObjectMoves(s, o.key, Born(o));
      case Delete(k, revision) =>
        PutObjectMoves(s, k, s.objects[k].(terminating := true));
      case Update(o) =>
        PutObjectMoves(s, o.key, Replaced(s.objects[o.key], o));
    }
  }

  lemma PutObjectGainsNone(s: Server, k: Address, o: Stored, u: string)
    requires OwnerOf(o) == Some(u) ==> k in s.objects && OwnerOf(s.objects[k]) == Some(u)
    ensures NoneGained(s, PutObject(s, k, o), u)
  {
  }

  lemma ActGainsNone(s: Server, a: Action, u: string)
    ensures NoneGained(s, Act(s, a), u)
  {
    if a.WriteObject? && MayWrite(s, a.obj) {
      PutObjectGainsNone(s, a.obj.key, a.obj, u);
    }
  }

  lemma ApplyGainsNone(s: Server, call: Call, u: string)
    requires call.Create? || call.Update? ==> OwnerOf(call.obj) != Some(u)
    ensures NoneGained(s, Apply(s, call).0, u)
  {
    if Apply(s, call).0.objects != s.objects {
      match call
      case Create(o) =>
        PutObjectGainsNone(s, o.key, Born(o), u);
      case Delete(k, revision) =>
        PutObjectGainsNone(s, k, s.objects[k].(terminating := true), u);
      case Update(o) =>
        PutObjectGainsNone(s, o.key, Replaced(s.objects[o.key], o), u);
    }
  }

  lemma ActKeeps(s: Server, a: Action, n: string)
    requires ServerOk(s)
    ensures Keeps(s, Act(s, a), n)
  {
  }

  lemma ApplyKeeps(s: Server, call: Call, n: string)
    requires ServerOk(s)
    requires call.UpdateProject? ==> call.project.name != n
    ensures Keeps(s, Apply(s, call).0, n)
  {
    if call.UpdateStatus? || call.UpdateProject? {
      assert n in s.projects && n != call.project.name ==> n in Apply(s, call).0.projects;
    } else {
      assert Apply(s, call).0.projects == s.projects;
    }
  }
}
