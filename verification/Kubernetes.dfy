/** The Kubernetes vocabulary the operator is written in: the three managed object kinds, object
    keys, objects as the operator builds them and as the API server stores them, and projects. */
module Kubernetes {

  datatype Option<+T> = None | Some(value: T)

  /** A Go error value; NoError is nil. */
  datatype Error = NoError | Error(text: string)

  /** errors.Wrap: a nil error stays nil. */
  function Wrap(e: Error, context: string): Error {
    match e
    case NoError => NoError
    case Error(text) => Error(context + ": " + text)
  }

  /** utilerrors.NewAggregate of two errors: nil entries are dropped, and equal texts told once. */
  function Aggregate(a: Error, b: Error): Error {
    if a.NoError? then b
    else if b.NoError? || a == b then a
    else Error("[" + a.text + ", " + b.text + "]")
  }

  datatype Kind = Namespace | RoleBinding | ClusterRoleBinding {
    predicate Namespaced() {
      RoleBinding?
    }

    function Group(): string {
      if Namespace? then "" else "rbac.authorization.k8s.io"
    }

    function Name(): string {
      match this
      case Namespace => "Namespace"
      case RoleBinding => "RoleBinding"
      case ClusterRoleBinding => "ClusterRoleBinding"
    }
  }

  datatype Key = Key(kind: Kind, namespace: string, name: string)

  /** The keys under which the API server can hold an object: the namespace is set exactly for
      namespaced kinds, and a namespaced object's name is one path segment. */
  predicate Addressable(k: Key) {
    && (k.kind.Namespaced() <==> k.namespace != "")
    && (k.kind.Namespaced() ==> '/' !in k.name)
  }

  type Address = k: Key | Addressable(k) witness Key(Namespace, "", "default")

  datatype Subject = User(name: string) | Group(name: string)

  /** What distinguishes two objects of one kind besides their metadata; a role reference always
      points to a ClusterRole, so its name is enough. */
  datatype Body = NoBody | Binding(subjects: seq<Subject>, role: string)

  /** An object as the operator builds it. typeMeta is the optional kind recorded in the object
      itself, which may disagree with the kind the scheme knows for its Go type. */
  datatype Object = Object(
    kind: Kind, typeMeta: Option<Kind>, namespace: string, name: string,
    labels: map<string, string>, annotations: map<string, string>, body: Body)

  /** Outcome of kstatus.Compute for a stored object that is not terminating. */
  datatype Verdict = Current | Pending | Broken(text: string)

  /** An object as the API server stores it, and as the operator sends it (with resourceVersion 0
      while unset). */
  datatype Stored = Stored(
    key: Key, labels: map<string, string>, annotations: map<string, string>, body: Body,
    resourceVersion: nat, terminating: bool, finalizers: set<string>, verdict: Verdict)

  /** Reading a missing entry of a Go map yields the empty string. */
  function Lookup(m: map<string, string>, k: string): string {
    if k in m then m[k] else ""
  }

  datatype ConditionStatus = Unset | True | False | Unknown

  datatype State = NoState | Ready | Processing | ErrorState | DeletionBlocked | Deleting {
    function Text(): string {
      match this
      case NoState => ""
      case Ready => "Ready"
      case Processing => "Processing"
      case ErrorState => "Error"
      case DeletionBlocked => "DeletionBlocked"
      case Deleting => "Deleting"
    }
  }

  datatype Condition = Condition(
    ctype: string, status: ConditionStatus, lastTransitionTime: Option<int>,
    reason: string, message: string)

  datatype Status = Status(
    observedGeneration: int, lastObservedAt: Option<int>, conditions: seq<Condition>,
    state: State, namespace: string)

  /** The status of a freshly created project: the default of the resource definition. */
  const FreshStatus := Status(-1, None, [], NoState, "")

  datatype Spec = Spec(
    adminUsers: seq<string>, adminGroups: seq<string>,
    viewerUsers: seq<string>, viewerGroups: seq<string>,
    labels: map<string, string>, annotations: map<string, string>)

  /** deleting stands for a set deletionTimestamp; creation is in nanoseconds. */
  datatype Project = Project(
    name: string, uid: string, generation: int, resourceVersion: nat, deleting: bool,
    creation: int, finalizers: set<string>, annotations: map<string, string>,
    spec: Spec, status: Status)

  const ProjectFinalizer := "project-operator.cs.sap.com"
  const LabelKeyOwner := "cs.sap.com/owner"
  const AnnotationKeyDigest := "cs.sap.com/digest"
  const AnnotationKeyTTL := "cs.sap.com/ttl"

  /** Foreign code, kept abstract: the SHA-256 digest of an object's JSON form, time.ParseDuration
      (in nanoseconds; None is the parse error) and the generic slices.Uniq. */
  datatype Library = Library(
    digest: Object -> string,
    parseDuration: string -> Option<int>,
    uniq: seq<Subject> -> seq<Subject>)

  datatype Config = Config(
    namespacePrefix: string, adminClusterRole: string, viewerClusterRole: string,
    enableClusterView: bool, lib: Library)
}

/** internal/deployer/util.go: object names and the string keys of the worklist. */
module Names {
  import opened Kubernetes

  function ObjectName(namespace: string, name: string): string {
    if namespace == "" then name else namespace + "/" + name
  }

  function GroupKindText(group: string, kind: string): string {
    if group == "" then kind else kind + "." + group
  }

  function ObjectKey(group: string, kind: string, namespace: string, name: string): string {
    GroupKindText(group, kind) + " " + ObjectName(namespace, name)
  }

  function WorkKey(k: Key): string {
    ObjectKey(k.kind.Group(), k.kind.Name(), k.namespace, k.name)
  }

  /** A separator that occurs in neither left part splits a string in one way only. */
  lemma SplitAtFirst(a: string, b: string, a': string, b': string, sep: char)
    requires sep !in a && sep !in a'
    requires a + [sep] + b == a' + [sep] + b'
    ensures a == a' && b == b'
  {
    var s := a + [sep] + b;
    assert s[|a|] == sep && forall i | 0 <= i < |a| :: s[i] == a[i];
    assert s[|a'|] == sep && forall i | 0 <= i < |a'| :: s[i] == a'[i];
    assert |a| == |a'|;
    assert a == s[..|a|] && a' == s[..|a|];
    assert b == s[|a| + 1..] && b' == s[|a| + 1..];
  }

  /** A separator that occurs in neither right part splits a string in one way only. */
  lemma SplitAtLast(a: string, b: string, a': string, b': string, sep: char)
    requires sep !in b && sep !in b'
    requires a + [sep] + b == a' + [sep] + b'
    ensures a == a' && b == b'
  {
    var s := a + [sep] + b;
    assert s[|a|] == sep && forall i | |a| < i < |s| :: s[i] == b[i - |a| - 1];
    assert s[|a'|] == sep && forall i | |a'| < i < |s| :: s[i] == b'[i - |a'| - 1];
    assert |a| == |a'|;
    assert a == s[..|a|] && a' == s[..|a|];
    assert b == s[|a| + 1..] && b' == s[|a| + 1..];
  }

  lemma ObjectNameInjective(ns: string, n: string, ns': string, n': string)
    requires '/' !in n && '/' !in n'
    requires ObjectName(ns, n) == ObjectName(ns', n')
    ensures ns == ns' && n == n'
  {
    var o := ObjectName(ns, n);
    assert '/' in o <==> ns != "" by {
      if ns != "" { assert o[|ns|] == '/'; }
    }
    assert '/' in o <==> ns' != "" by {
      if ns' != "" { assert o[|ns'|] == '/'; }
    }
    if ns != "" {
      assert o == ns + ['/'] + n == ns' + ['/'] + n';
      SplitAtLast(ns, n, ns', n', '/');
    }
  }

  lemma GroupKindInjective(g: string, k: string, g': string, k': string)
    requires '.' !in k && '.' !in k'
    requires GroupKindText(g, k) == GroupKindText(g', k')
    ensures g == g' && k == k'
  {
    var t := GroupKindText(g, k);
    assert '.' in t <==> g != "" by {
      if g != "" { assert t[|k|] == '.'; }
    }
    assert '.' in t <==> g' != "" by {
      if g' != "" { assert t[|k'|] == '.'; }
    }
    if g != "" {
      assert t == k + ['.'] + g == k' + ['.'] + g';
      SplitAtFirst(k, g, k', g', '.');
    }
  }

  lemma GroupKindPlain(g: string, k: string)
    requires ' ' !in k && ' ' !in g
    ensures ' ' !in GroupKindText(g, k)
  {
  }

  lemma ObjectKeySplits(g: string, k: string, o: string, g': string, k': string, o': string)
    requires ' ' !in k && ' ' !in k' && ' ' !in g && ' ' !in g'
    requires GroupKindText(g, k) + " " + o == GroupKindText(g', k') + " " + o'
    ensures GroupKindText(g, k) == GroupKindText(g', k') && o == o'
  {
    var a, a' := GroupKindText(g, k), GroupKindText(g', k');
    GroupKindPlain(g, k);
    GroupKindPlain(g', k');
    assert a + " " + o == a + [' '] + o && a' + " " + o' == a' + [' '] + o';
    SplitAtFirst(a, o, a', o', ' ');
  }

  /** The worklist key is injective over any objects whose kinds hold no dot or space, groups no
      space and names no slash. */
  lemma ObjectKeyInjective(g: string, k: string, ns: string, n: string,
                           g': string, k': string, ns': string, n': string)
    requires '.' !in k && ' ' !in k && '.' !in k' && ' ' !in k'
    requires ' ' !in g && ' ' !in g'
    requires '/' !in n && '/' !in n'
    requires ObjectKey(g, k, ns, n) == ObjectKey(g', k', ns', n')
    ensures g == g' && k == k' && ns == ns' && n == n'
  {
    ObjectKeySplits(g, k, ObjectName(ns, n), g', k', ObjectName(ns', n'));
    GroupKindInjective(g, k, g', k');
    ObjectNameInjective(ns, n, ns', n');
  }

  /** The condition on names is needed: a slash in a cluster-scoped name collides. */
  lemma SlashInNameCollides(g: string, k: string, ns: string, n: string)
    requires ns != ""
    ensures ObjectKey(g, k, "", ns + "/" + n) == ObjectKey(g, k, ns, n)
    ensures ("", ns + "/" + n) != (ns, n)
  {
  }

  lemma KindNamePlain(k: Kind)
    ensures ' ' !in k.Name() && '.' !in k.Name()
  {
    assert ' ' !in "Namespace" && '.' !in "Namespace";
    assert ' ' !in "RoleBinding" && '.' !in "RoleBinding";
    assert ' ' !in "ClusterRoleBinding" && '.' !in "ClusterRoleBinding";
  }

  lemma GroupPlain(k: Kind)
    ensures ' ' !in k.Group()
  {
    assert ' ' !in "rbac.authorization.k8s.io";
  }

  lemma KindsDistinct(a: Kind, b: Kind)
    requires a.Name() == b.Name()
    ensures a == b
  {
    var lengths := (k: Kind) => if k.Namespace? then 9 else if k.RoleBinding? then 11 else 18;
    assert |a.Name()| == lengths(a);
    assert |b.Name()| == lengths(b);
  }

  /** On keys the API server can hold, distinct keys have distinct worklist keys; here even
      cluster-scoped names may hold slashes, because the kind already fixes the scope. */
  lemma WorkKeyInjective(a: Key, b: Key)
    requires Addressable(a) && Addressable(b) && WorkKey(a) == WorkKey(b)
    ensures a == b
  {
    KindNamePlain(a.kind);
    KindNamePlain(b.kind);
    GroupPlain(a.kind);
    GroupPlain(b.kind);
    ObjectKeySplits(a.kind.Group(), a.kind.Name(), ObjectName(a.namespace, a.name),
                    b.kind.Group(), b.kind.Name(), ObjectName(b.namespace, b.name));
    GroupKindInjective(a.kind.Group(), a.kind.Name(), b.kind.Group(), b.kind.Name());
    KindsDistinct(a.kind, b.kind);
    if a.kind.Namespaced() {
      ObjectNameInjective(a.namespace, a.name, b.namespace, b.name);
    }
  }
}
