/** The compiler from a project's spec to its dependent objects (buildDependentObjects in
    controllers/project_controller.go): what it emits, and what the emitted objects grant. */
module Compilation {
  import opened Kubernetes
  import opened Names
  import opened Deployment

  function NamespaceName(c: Config, name: string): string {
    c.namespacePrefix + name
  }

  function Subjects(users: seq<string>, groups: seq<string>): seq<Subject> {
    seq(|users| + |groups|, i requires 0 <= i < |users| + |groups| =>
      if i < |users| then User(users[i]) else Group(groups[i - |users|]))
  }

  function Admins(spec: Spec): seq<Subject> {
    Subjects(spec.adminUsers, spec.adminGroups)
  }

  function Viewers(spec: Spec): seq<Subject> {
    Subjects(spec.viewerUsers, spec.viewerGroups)
  }

  const AdminBinding := "project:admin"
  const ViewerBinding := "project:viewer"

  function ViewName(name: string): string {
    "project:" + name + ":view"
  }

  function NamespaceObject(c: Config, name: string, spec: Spec): Object {
    Object(Namespace, None, "", NamespaceName(c, name), spec.labels, spec.annotations, NoBody)
  }

  function BindingObject(c: Config, name: string, binding: string, subjects: seq<Subject>, role: string): Object {
    Object(RoleBinding, None, NamespaceName(c, name), binding, map[], map[], Binding(subjects, role))
  }

  function ViewObject(c: Config, name: string, subjects: seq<Subject>): Object {
    Object(ClusterRoleBinding, None, "", ViewName(name), map[], map[], Binding(c.lib.uniq(subjects), "view"))
  }

  /** The dependent objects of a project. */
  function Build(c: Config, name: string, spec: Spec): seq<Object> {
    [NamespaceObject(c, name, spec)]
    + (if Admins(spec) != [] then [BindingObject(c, name, AdminBinding, Admins(spec), c.adminClusterRole)] else [])
    + (if Viewers(spec) != [] then [BindingObject(c, name, ViewerBinding, Viewers(spec), c.viewerClusterRole)] else [])
    + (if c.enableClusterView && Admins(spec) + Viewers(spec) != []
       then [ViewObject(c, name, Admins(spec) + Viewers(spec))] else [])
  }

  function ObjectKeyOf(o: Object): Key {
    Key(o.kind, o.namespace, o.name)
  }

  // ---- Keys ---------------------------------------------------------------------------------

  function NamespaceKeyOf(c: Config, name: string): Key {
    Key(Namespace, "", NamespaceName(c, name))
  }

  function AdminKey(c: Config, name: string): Key {
    Key(RoleBinding, NamespaceName(c, name), AdminBinding)
  }

  function ViewerKey(c: Config, name: string): Key {
    Key(RoleBinding, NamespaceName(c, name), ViewerBinding)
  }

  function ViewKey(name: string): Key {
    Key(ClusterRoleBinding, "", ViewName(name))
  }

  /** The keys a project of this name can generate, under any spec. */
  predicate Belongs(c: Config, name: string, k: Key) {
    k == NamespaceKeyOf(c, name) || k == AdminKey(c, name) || k == ViewerKey(c, name) || k == ViewKey(name)
  }

  lemma BindingNamesPlain()
    ensures '/' !in AdminBinding && '/' !in ViewerBinding && AdminBinding != ViewerBinding
  {
    assert '/' !in "project:admin";
    assert '/' !in "project:viewer";
    assert |"project:admin"| == 13 && |"project:viewer"| == 14;
  }

  lemma BelongsAddressable(c: Config, name: string, k: Key)
    requires c.namespacePrefix != "" && Belongs(c, name, k)
    ensures Addressable(k)
  {
    BindingNamesPlain();
    assert |NamespaceName(c, name)| > 0;
  }

  lemma NamespaceNameInjective(c: Config, n: string, m: string)
    requires NamespaceName(c, n) == NamespaceName(c, m)
    ensures n == m
  {
    assert n == NamespaceName(c, n)[|c.namespacePrefix|..];
    assert m == NamespaceName(c, m)[|c.namespacePrefix|..];
  }

  lemma ViewNameInjective(n: string, m: string)
    requires ViewName(n) == ViewName(m)
    ensures n == m
  {
    var p, q := "project:", ":view";
    assert |ViewName(n)| == |p| + |n| + |q| && |ViewName(m)| == |p| + |m| + |q|;
    assert n == ViewName(n)[|p|..|p| + |n|];
    assert m == ViewName(m)[|p|..|p| + |m|];
  }

  /** Distinct project names never share a key. */
  lemma KeysDisjoint(c: Config, n: string, m: string, k: Key)
    requires Belongs(c, n, k) && Belongs(c, m, k)
    ensures n == m
  {
    if k.kind.Namespace? || k.kind.RoleBinding? {
      NamespaceNameInjective(c, n, m);
    } else {
      ViewNameInjective(n, m);
    }
  }

  // ---- What the compiler guarantees the deployer --------------------------------------------

  const Managed: seq<Kind> := [Namespace, RoleBinding, ClusterRoleBinding]

  /** The job ReconcileObjects is given for a project: nothing is desired once it is deleted. */
  function JobFor(c: Config, p: Project): Job {
    Job(Managed, LabelKeyOwner, AnnotationKeyDigest, c.lib.digest,
        if p.deleting then [] else Build(c, p.name, p.spec), p.uid)
  }

  lemma BuildDistinct(c: Config, name: string, spec: Spec)
    ensures forall i, j | 0 <= i < j < |Build(c, name, spec)| ::
              ObjectKeyOf(Build(c, name, spec)[i]) != ObjectKeyOf(Build(c, name, spec)[j])
  {
    BindingNamesPlain();
  }

  /** Every built object passes every check of the deployer, lies under a key of its project, and no
      two share a key. */
  lemma BuildAccepted(c: Config, name: string, spec: Spec, job: Job)
    requires c.namespacePrefix != "" && job.managed == Managed
    ensures forall o | o in Build(c, name, spec) ::
              Complaint(job, o).None? && Belongs(c, name, ObjectKeyOf(o))
    ensures forall i, j | 0 <= i < j < |Build(c, name, spec)| ::
              ObjectKeyOf(Build(c, name, spec)[i]) != ObjectKeyOf(Build(c, name, spec)[j])
    ensures NamespaceObject(c, name, spec) == Build(c, name, spec)[0]
  {
    assert |NamespaceName(c, name)| > 0;
    BuildDistinct(c, name, spec);
  }

  lemma BuildBodies(c: Config, name: string, spec: Spec)
    ensures forall o | o in Build(c, name, spec) ::
              && (o.kind.ClusterRoleBinding? ==> o.body.Binding? && o.body.role == "view")
              && (o.kind.Namespace? ==> o.body.NoBody?)
  {
  }

  /** First the users, then the groups, in the order given. */
  predicate Lists(subjects: seq<Subject>, users: seq<string>, groups: seq<string>) {
    && |subjects| == |users| + |groups|
    && (forall i | 0 <= i < |users| :: subjects[i] == User(users[i]))
    && (forall i | 0 <= i < |groups| :: subjects[|users| + i] == Group(groups[i]))
  }

  /** A role binding without labels and annotations in namespace ns, for exactly these users and groups. */
  predicate Binds(o: Object, ns: string, name: string, users: seq<string>, groups: seq<string>, role: string) {
    && o.kind.RoleBinding? && o.typeMeta.None? && o.namespace == ns && o.name == name
    && o.labels == map[] && o.annotations == map[]
    && o.body.Binding? && o.body.role == role && Lists(o.body.subjects, users, groups)
  }

  /** The namespace: named prefix and project name, with the labels and annotations of the spec. */
  predicate IsNamespace(o: Object, c: Config, name: string, spec: Spec) {
    o == Object(Namespace, None, "", c.namespacePrefix + name, spec.labels, spec.annotations, NoBody)
  }

  /** The cluster role binding: for admins and viewers together, without duplicates. */
  ghost predicate IsClusterView(o: Object, c: Config, name: string, spec: Spec) {
    && o.kind.ClusterRoleBinding? && o.typeMeta.None? && o.namespace == ""
    && o.name == "project:" + name + ":view" && o.labels == map[] && o.annotations == map[]
    && o.body.Binding? && o.body.role == "view"
    && exists admins, viewers ::
         && Lists(admins, spec.adminUsers, spec.adminGroups) && Lists(viewers, spec.viewerUsers, spec.viewerGroups)
         && o.body.subjects == c.lib.uniq(admins + viewers)
  }

  /** The form of each object of a project, by its kind. */
  ghost predicate WellFormed(o: Object, c: Config, name: string, spec: Spec) {
    var ns := c.namespacePrefix + name;
    match o.kind
    case Namespace => IsNamespace(o, c, name, spec)
    case RoleBinding =>
      || Binds(o, ns, "project:admin", spec.adminUsers, spec.adminGroups, c.adminClusterRole)
      || Binds(o, ns, "project:viewer", spec.viewerUsers, spec.viewerGroups, c.viewerClusterRole)
    case ClusterRoleBinding => IsClusterView(o, c, name, spec)
  }

  predicate Has(objects: seq<Object>, kind: Kind, name: string) {
    exists o :: o in objects && o.kind == kind && o.name == name
  }

  /** The objects of a project, one by one, with their literal names, and no others: its namespace; the
      admins' and the viewers' role binding in it, each iff there is anybody to bind; and the cluster
      role binding iff cluster view is enabled and there is anybody at all. */
  ghost predicate ExactlyBuilt(c: Config, name: string, spec: Spec, objects: seq<Object>) {
    && (forall o | o in objects :: WellFormed(o, c, name, spec))
    && (forall i, j | 0 <= i < j < |objects| ::
          objects[i].kind != objects[j].kind || objects[i].name != objects[j].name)
    && Has(objects, Namespace, c.namespacePrefix + name)
    && (Has(objects, RoleBinding, "project:admin") <==> spec.adminUsers != [] || spec.adminGroups != [])
    && (Has(objects, RoleBinding, "project:viewer") <==> spec.viewerUsers != [] || spec.viewerGroups != [])
    && (Has(objects, ClusterRoleBinding, "project:" + name + ":view") <==>
          c.enableClusterView && (|| spec.adminUsers != [] || spec.adminGroups != []
                                  || spec.viewerUsers != [] || spec.viewerGroups != []))
  }

  lemma BuildForms(c: Config, name: string, spec: Spec, o: Object)
    requires o in Build(c, name, spec)
    ensures WellFormed(o, c, name, spec)
  {
    BuildParts(c, name, spec);
    BuildKinds(c, name, spec);
    hide Build, Subjects;
    SubjectsListed(spec.adminUsers, spec.adminGroups);
    SubjectsListed(spec.viewerUsers, spec.viewerGroups);
  }

  lemma SubjectsListed(users: seq<string>, groups: seq<string>)
    ensures Lists(Subjects(users, groups), users, groups)
    ensures Subjects(users, groups) == [] <==> users == [] && groups == []
  {
  }

  lemma BuildHas(c: Config, name: string, spec: Spec)
    ensures var objects := Build(c, name, spec);
            && Has(objects, Namespace, c.namespacePrefix + name)
            && (Has(objects, RoleBinding, "project:admin") <==> Admins(spec) != [])
            && (Has(objects, RoleBinding, "project:viewer") <==> Viewers(spec) != [])
            && (Has(objects, ClusterRoleBinding, "project:" + name + ":view") <==>
                  c.enableClusterView && Admins(spec) + Viewers(spec) != [])
  {
    BuildParts(c, name, spec);
    BuildKinds(c, name, spec);
    BindingNamesPlain();
    hide Build, Subjects, Admins, Viewers;
    var admin := BindingObject(c, name, AdminBinding, Admins(spec), c.adminClusterRole);
    var viewer := BindingObject(c, name, ViewerBinding, Viewers(spec), c.viewerClusterRole);
    var view := ViewObject(c, name, Admins(spec) + Viewers(spec));
    assert admin.name == "project:admin" && viewer.name == "project:viewer" && view.name == "project:" + name + ":view";
  }

  lemma BuildIsExact(c: Config, name: string, spec: Spec)
    ensures ExactlyBuilt(c, name, spec, Build(c, name, spec))
  {
    hide Build, Subjects, WellFormed, Has;
    var objects := Build(c, name, spec);
    forall o | o in objects ensures WellFormed(o, c, name, spec) {
      BuildForms(c, name, spec, o);
    }
    BuildHas(c, name, spec);
    SubjectsListed(spec.adminUsers, spec.adminGroups);
    SubjectsListed(spec.viewerUsers, spec.viewerGroups);
    BuildDistinct(c, name, spec);
    forall i, j | 0 <= i < j < |objects|
      ensures objects[i].kind != objects[j].kind || objects[i].name != objects[j].name
    {
      BuildForms(c, name, spec, objects[i]);
      BuildForms(c, name, spec, objects[j]);
      if objects[i].kind == objects[j].kind {
        SameForm(objects[i], objects[j], c, name, spec);
      }
    }
  }

  /** Objects of a project of one kind share their namespace. */
  lemma SameForm(a: Object, b: Object, c: Config, name: string, spec: Spec)
    requires WellFormed(a, c, name, spec) && WellFormed(b, c, name, spec) && a.kind == b.kind
    ensures a.namespace == b.namespace
  {
  }

  lemma BuildKinds(c: Config, name: string, spec: Spec)
    ensures NamespaceObject(c, name, spec) in Build(c, name, spec)
    ensures forall o | o in Build(c, name, spec) && o.kind.Namespace? :: o == NamespaceObject(c, name, spec)
    ensures (exists o :: o in Build(c, name, spec) && o.kind.ClusterRoleBinding?) <==>
            c.enableClusterView && Admins(spec) + Viewers(spec) != []
  {
    assert Build(c, name, spec)[0] == NamespaceObject(c, name, spec);
    if c.enableClusterView && Admins(spec) + Viewers(spec) != [] {
      BuildParts(c, name, spec);
      assert ViewObject(c, name, Admins(spec) + Viewers(spec)) in Build(c, name, spec);
    }
  }

  // ---- What the built objects grant ---------------------------------------------------------

  predicate GrantsIn(o: Object, namespace: string, role: string, s: Subject) {
    o.kind.RoleBinding? && o.namespace == namespace && o.body.Binding? && o.body.role == role && s in o.body.subjects
  }

  predicate GrantsEverywhere(o: Object, role: string, s: Subject) {
    o.kind.ClusterRoleBinding? && o.body.Binding? && o.body.role == role && s in o.body.subjects
  }

  ghost predicate Granted(objects: seq<Object>, namespace: string, role: string, s: Subject) {
    exists o :: o in objects && GrantsIn(o, namespace, role, s)
  }

  ghost predicate GrantedEverywhere(objects: seq<Object>, role: string, s: Subject) {
    exists o :: o in objects && GrantsEverywhere(o, role, s)
  }

  ghost predicate AdminBySpec(spec: Spec, s: Subject) {
    match s
    case User(name) => name in spec.adminUsers
    case Group(name) => name in spec.adminGroups
  }

  ghost predicate ViewerBySpec(spec: Spec, s: Subject) {
    match s
    case User(name) => name in spec.viewerUsers
    case Group(name) => name in spec.viewerGroups
  }

  ghost predicate NoDuplicates(s: seq<Subject>) {
    forall i, j | 0 <= i < j < |s| :: s[i] != s[j]
  }

  /** The contract of the generic Uniq: same elements, each once. */
  ghost predicate UniqContract(lib: Library) {
    forall s :: NoDuplicates(lib.uniq(s)) && forall x :: x in lib.uniq(s) <==> x in s
  }

  lemma SubjectsAre(users: seq<string>, groups: seq<string>, s: Subject)
    ensures s in Subjects(users, groups) <==>
            match s case User(name) => name in users case Group(name) => name in groups
  {
    var all := Subjects(users, groups);
    match s
    case User(name) =>
      if name in users {
        var i :| 0 <= i < |users| && users[i] == name;
        assert all[i] == s;
      }
    case Group(name) =>
      if name in groups {
        var i :| 0 <= i < |groups| && groups[i] == name;
        assert all[|users| + i] == s;
      }
  }

  /** Which objects are built, one by one. */
  lemma BuildParts(c: Config, name: string, spec: Spec)
    ensures var objects := Build(c, name, spec);
            var admin := BindingObject(c, name, AdminBinding, Admins(spec), c.adminClusterRole);
            var viewer := BindingObject(c, name, ViewerBinding, Viewers(spec), c.viewerClusterRole);
            var view := ViewObject(c, name, Admins(spec) + Viewers(spec));
            && (admin in objects <==> Admins(spec) != []) && (viewer in objects <==> Viewers(spec) != [])
            && (view in objects <==> c.enableClusterView && Admins(spec) + Viewers(spec) != [])
            && forall o | o in objects :: o.kind.Namespace? || o == admin || o == viewer || o == view
  {
    BindingNamesPlain();
  }

  /** In the project's namespace exactly the admins hold the admin role and exactly the viewers the
      viewer role; in no other namespace is anything granted; and the view role is granted everywhere
      to all of them iff cluster view is enabled, each subject listed once. */
  lemma BuildGrants(c: Config, name: string, spec: Spec, namespace: string, role: string, s: Subject)
    requires UniqContract(c.lib)
    ensures Granted(Build(c, name, spec), namespace, role, s) <==>
            namespace == NamespaceName(c, name) &&
            ((role == c.adminClusterRole && AdminBySpec(spec, s))
             || (role == c.viewerClusterRole && ViewerBySpec(spec, s)))
    ensures GrantedEverywhere(Build(c, name, spec), role, s) <==>
            c.enableClusterView && role == "view" && (AdminBySpec(spec, s) || ViewerBySpec(spec, s))
    ensures forall o | o in Build(c, name, spec) && o.kind.ClusterRoleBinding? :: NoDuplicates(o.body.subjects)
  {
    BuildParts(c, name, spec);
    hide Build;
    SubjectsAre(spec.adminUsers, spec.adminGroups, s);
    SubjectsAre(spec.viewerUsers, spec.viewerGroups, s);
    assert s in c.lib.uniq(Admins(spec) + Viewers(spec)) <==> s in Admins(spec) || s in Viewers(spec);
  }

  // ---- Desired objects by key ---------------------------------------------------------------

  lemma {:induction false} DesiredFrom(job: Job, n: nat, x: string) returns (i: nat)
    requires n <= |job.objects| && x in Desired(job, n)
    ensures i < n && Desired(job, n)[x] == Prepared(job, job.objects[i]) && x == WorkKey(ObjectKeyOf(job.objects[i]))
  {
    hide WorkKey, Build;
    if x == WorkKey(ObjectKeyOf(job.objects[n - 1])) {
      i := n - 1;
    } else {
      i := DesiredFrom(job, n - 1, x);
    }
  }

  lemma {:induction false} DesiredHas(job: Job, n: nat, i: nat)
    requires i < n <= |job.objects|
    ensures WorkKey(ObjectKeyOf(job.objects[i])) in Desired(job, n)
  {
    hide WorkKey;
    if i < n - 1 {
      DesiredHas(job, n - 1, i);
    }
  }

  /** The desired objects of a project lie under its own keys, and its namespace is one of them
      unless the project is being deleted. */
  lemma DesiredBelongs(c: Config, p: Project)
    requires c.namespacePrefix != ""
    ensures FirstObjection(JobFor(c, p), |JobFor(c, p).objects|).None?
    ensures forall x | x in AllDesired(JobFor(c, p)) ::
              var o := AllDesired(JobFor(c, p))[x];
              x == WorkKey(o.key) && Belongs(c, p.name, o.key)
              && LabelKeyOwner in o.labels && o.labels[LabelKeyOwner] == p.uid
    ensures !p.deleting ==> WorkKey(NamespaceKeyOf(c, p.name)) in AllDesired(JobFor(c, p))
  {
    var job := JobFor(c, p);
    BuildAccepted(c, p.name, p.spec, job);
    var first := ObjectionIsFirst(job, |job.objects|);
    forall x | x in AllDesired(job)
      ensures var o := AllDesired(job)[x];
              x == WorkKey(o.key) && Belongs(c, p.name, o.key)
              && LabelKeyOwner in o.labels && o.labels[LabelKeyOwner] == p.uid
    {
      var i := DesiredFrom(job, |job.objects|, x);
      assert job.objects[i] in Build(c, p.name, p.spec);
    }
    if !p.deleting {
      DesiredHas(job, |job.objects|, 0);
    }
  }

  /** d is o with its own labels and annotations, except that the owner label and the digest annotation
      carry the operator's values; the digest is that of the object with its kind recorded. */
  ghost predicate Carries(job: Job, o: Object, d: Stored) {
    && d.key == ObjectKeyOf(o) && d.body == o.body
    && d.labels.Keys == o.labels.Keys + {job.ownerKey} && d.labels[job.ownerKey] == job.owner
    && (forall k | k in o.labels && k != job.ownerKey :: d.labels[k] == o.labels[k])
    && d.annotations.Keys == o.annotations.Keys + {job.digestKey}
    && d.annotations[job.digestKey] == job.digest(o.(typeMeta := Some(o.kind)))
    && (forall k | k in o.annotations && k != job.digestKey :: d.annotations[k] == o.annotations[k])
  }

  lemma PreparedCarries(job: Job, o: Object)
    ensures Carries(job, o, Prepared(job, o))
  {
  }

  lemma NamespaceAsSpecified(c: Config, name: string, spec: Spec)
    ensures forall o | o in Build(c, name, spec) && o.kind.Namespace? :: o == NamespaceObject(c, name, spec)
  {
  }

  /** Every desired object is a built one, with the operator's owner label and digest whatever the spec
      says there; the namespace otherwise has exactly the labels and annotations of the spec. */
  lemma OperatorMetadataWins(c: Config, p: Project, x: string) returns (o: Object)
    requires !p.deleting && x in AllDesired(JobFor(c, p))
    ensures o in Build(c, p.name, p.spec) && WorkKey(ObjectKeyOf(o)) == x
    ensures Carries(JobFor(c, p), o, AllDesired(JobFor(c, p))[x])
    ensures o.kind.Namespace? ==> o.labels == p.spec.labels && o.annotations == p.spec.annotations
  {
    var job := JobFor(c, p);
    var i := DesiredFrom(job, |job.objects|, x);
    o := job.objects[i];
    PreparedCarries(job, o);
    NamespaceAsSpecified(c, p.name, p.spec);
  }
}
