/** webhooks/project_webhook.go: which requests on projects are admitted, and what that guarantees
    over whole runs of the system. */
module Admission {
  import opened Kubernetes
  import opened Names
  import opened ApiServer
  import opened Compilation
  import opened Deployment
  import opened Controller
  import opened Runs
  import opened Safety
  import opened Guarantees

  datatype UserInfo = UserInfo(uid: string, username: string, groups: seq<string>)

  datatype Operation = CreateOp | ConnectOp | UpdateOp | DeleteOp

  /** An admission request, as far as the webhook reads it. */
  datatype Request = Request(user: UserInfo, operation: Operation)

  /** The access review put to the cluster: who, and which verb on which resource. */
  datatype Review = Review(
    uid: string, user: string, groups: seq<string>,
    apiGroup: string, version: string, resource: string, name: string, verb: string)

  datatype Answer = Allowed | Denied | Unanswered(text: string)

  const ServiceAccounts := "system:serviceaccount:"

  predicate Parseable(lib: Library, annotations: map<string, string>) {
    AnnotationKeyTTL in annotations ==> lib.parseDuration(annotations[AnnotationKeyTTL]).Some?
  }

  /** Identities that need no access review for a project with this spec. */
  predicate Exempt(spec: Spec, user: UserInfo) {
    || ServiceAccounts <= user.username
    || user.username in spec.adminUsers
    || exists g :: g in user.groups && g in spec.adminGroups
  }

  function ReviewOf(c: Config, name: string, user: UserInfo, verb: string): Review {
    Review(user.uid, user.username, user.groups, "", "v1", "namespaces", NamespaceName(c, name), verb)
  }

  /** The verb the webhook puts into the review. */
  function Verb(operation: Operation): string {
    if operation == UpdateOp then "PUT" else "DELETE"
  }

  /** Whether a user may update or delete the project with this name and (stored) spec. */
  predicate Entitled(c: Config, name: string, spec: Spec, user: UserInfo, operation: Operation,
                     review: Review -> Answer) {
    Exempt(spec, user) || review(ReviewOf(c, name, user, Verb(operation))) == Allowed
  }

  /** A request is cleared if it is there at all and either creates or connects or has an entitled
      author. */
  predicate Cleared(c: Config, p: Project, request: Option<Request>, review: Review -> Answer) {
    && request.Some?
    && (|| request.value.operation in {CreateOp, ConnectOp}
        || Entitled(c, p.name, p.spec, request.value.user, request.value.operation, review))
  }

  /** The access review is about the one namespace that is built for the project. */
  lemma ReviewsItsNamespace(c: Config, p: Project, user: UserInfo, operation: Operation, review: Review -> Answer,
                            o: Object)
    requires operation == UpdateOp || operation == DeleteOp
    requires o in Build(c, p.name, p.spec) && o.kind.Namespace?
    ensures Entitled(c, p.name, p.spec, user, operation, review) <==>
            || "system:serviceaccount:" <= user.username || user.username in p.spec.adminUsers
            || (exists g :: g in user.groups && g in p.spec.adminGroups)
            || Allowed == review(Review(user.uid, user.username, user.groups, "", "v1", "namespaces", o.name,
                                        if operation == UpdateOp then "PUT" else "DELETE"))
  {
    BuildIsExact(c, p.name, p.spec);
  }

  class ProjectWebhook {
    const options: Config
    const review: Review -> Answer

    constructor New(options: Config, review: Review -> Answer)
      ensures this.options == options && this.review == review
    {
      this.options, this.review := options, review;
    }

    method Validate(project: Project) returns (err: Error)
      ensures err == NoError <==> Parseable(options.lib, project.annotations)
      ensures err == NoError <==>
              ("cs.sap.com/ttl" in project.annotations ==>
                 options.lib.parseDuration(project.annotations["cs.sap.com/ttl"]).Some?)
    {
      if AnnotationKeyTTL in project.annotations {
        if options.lib.parseDuration(project.annotations[AnnotationKeyTTL]).None? {
          return Wrap(ParseError, "invalid value for annotation");
        }
      }
      return NoError;
    }

    method Authorize(request: Option<Request>, project: Project) returns (err: Error)
      ensures err == NoError <==> Cleared(options, project, request, review)
      ensures request.None? ==> err != NoError
      ensures request.Some? && request.value.operation in {CreateOp, ConnectOp} ==> err == NoError
      ensures request.Some? && request.value.operation in {UpdateOp, DeleteOp} ==>
                var user := request.value.user;
                if || "system:serviceaccount:" <= user.username || user.username in project.spec.adminUsers
                   || exists g :: g in user.groups && g in project.spec.adminGroups
                then err == NoError
                else
                  (err == NoError <==>
                   Allowed == review(Review(
                     user.uid, user.username, user.groups, "", "v1", "namespaces",
                     options.namespacePrefix + project.name,
                     if request.value.operation == UpdateOp then "PUT" else "DELETE")))
    {
      if request.None? {
        return Error("error extracting admission review request from context");
      }
      var user := request.value.user;
      var verb, action;
      match request.value.operation {
        case CreateOp => return NoError;
        case ConnectOp => return NoError;
        case UpdateOp => verb, action := "PUT", "update";
        case DeleteOp => verb, action := "DELETE", "delete";
      }
      if ServiceAccounts <= user.username {
        return NoError;
      }
      if user.username in project.spec.adminUsers {
        return NoError;
      }
      for i := 0 to |user.groups|
        invariant forall j | 0 <= j < i :: user.groups[j] !in project.spec.adminGroups
      {
        if user.groups[i] in project.spec.adminGroups {
          return NoError;
        }
      }
      assert !Exempt(project.spec, user);
      var subjectAccessReview := Review(user.uid, user.username, user.groups, "", "v1", "namespaces",
                                        options.namespacePrefix + project.name, verb);
      var answer := review(subjectAccessReview);
      match answer {
        case Unanswered(text) => return Wrap(Error(text), "error creating subject access review");
        case Allowed => return NoError;
        case Denied => return Error("user " + user.username + " is not allowed to " + action + " " + project.name);
      }
    }

    method ValidateCreate(project: Project) returns (err: Error)
      ensures err == NoError <==> Parseable(options.lib, project.annotations)
    {
      err := Validate(project);
    }

    /** The new project has to be valid; the permission is judged against the old one. */
    method ValidateUpdate(request: Option<Request>, oldProject: Project, newProject: Project) returns (err: Error)
      ensures err == NoError <==>
              Parseable(options.lib, newProject.annotations) && Cleared(options, oldProject, request, review)
    {
      err := Validate(newProject);
      if err != NoError {
        return;
      }
      err := Authorize(request, oldProject);
    }

    method ValidateDelete(request: Option<Request>, project: Project) returns (err: Error)
      ensures err == NoError <==> Cleared(options, project, request, review)
    {
      err := Authorize(request, project);
    }

    /** How the API server consults the webhook about an action by user. */
    method Consult(s: Server, a: Action, user: UserInfo) returns (admitted: bool)
      ensures admitted <==> Admits(options, s, a, user, review)
    {
      var err := NoError;
      match a {
        case CreateProject(p) => err := ValidateCreate(p);
        case EditProject(n, annotations, finalizers, spec) =>
          if n in s.projects {
            var p := s.projects[n];
            err := ValidateUpdate(Some(Request(user, UpdateOp)), p, Edited(p, annotations, finalizers, spec));
          }
        case DeleteProject(n) =>
          if n in s.projects {
            err := ValidateDelete(Some(Request(user, DeleteOp)), s.projects[n]);
          }
        case WriteObject(_) =>
        case RemoveObject(_) =>
      }
      admitted := err == NoError;
    }
  }

  // ---- Runs behind the webhook --------------------------------------------------------------

  /** A step of a run; an action of the environment is requested by somebody and reviewed. */
  datatype Attempt = Attempt(step: Step, user: UserInfo, review: Review -> Answer)

  /** The webhook's decision on an action (ValidateCreate, ValidateUpdate, ValidateDelete). */
  predicate Admits(c: Config, s: Server, a: Action, user: UserInfo, review: Review -> Answer) {
    match a
    case CreateProject(p) => Parseable(c.lib, p.annotations)
    case EditProject(n, annotations, _, _) =>
      n in s.projects ==>
        && Parseable(c.lib, annotations)
        && Entitled(c, s.projects[n].name, s.projects[n].spec, user, UpdateOp, review)
    case DeleteProject(n) =>
      n in s.projects ==> Entitled(c, s.projects[n].name, s.projects[n].spec, user, DeleteOp, review)
    case _ => true
  }

  function Allow(c: Config, sys: System, a: Attempt): System {
    if a.step.Environment? && !Admits(c, sys.server, a.step.action, a.user, a.review) then sys
    else Next(c, sys, a.step)
  }

  function AllowAll(c: Config, sys: System, attempts: seq<Attempt>): System
    decreases |attempts|
  {
    if attempts == [] then sys else AllowAll(c, Allow(c, sys, attempts[0]), attempts[1..])
  }

  lemma AllowKeeps(c: Config, sys: System, a: Attempt)
    requires Inv(c, sys)
    ensures Inv(c, Allow(c, sys, a))
  {
    NextKeeps(c, sys, a.step);
  }

  // ---- Every TTL parses ---------------------------------------------------------------------

  function InFlight(phase: Phase): Option<Project> {
    match phase
    case AddingFinalizer(p) => Some(p)
    case Deploying(p, _) => Some(p)
    case RemovingFinalizer(p) => Some(p)
    case Reporting(p, _, _, _) => Some(p)
    case _ => None
  }

  predicate StoredParse(c: Config, s: Server) {
    forall n | n in s.projects :: Parseable(c.lib, s.projects[n].annotations)
  }

  predicate PhaseParses(c: Config, phase: Phase) {
    InFlight(phase).Some? ==> Parseable(c.lib, InFlight(phase).value.annotations)
  }

  predicate AllParse(c: Config, sys: System) {
    StoredParse(c, sys.server) && forall n | n in sys.active :: PhaseParses(c, sys.active[n].phase)
  }

  lemma ApplyParses(c: Config, s: Server, call: Call)
    requires StoredParse(c, s)
    requires call.UpdateProject? ==> Parseable(c.lib, call.project.annotations)
    ensures StoredParse(c, Apply(s, call).0)
    ensures Apply(s, call).1.GotProject? ==> Parseable(c.lib, Apply(s, call).1.project.annotations)
  {
  }

  lemma EnterParses(c: Config, now: int, clock: int, p: Project, d: Deploy)
    requires Parseable(c.lib, p.annotations)
    ensures PhaseParses(c, Enter(c, now, clock, p, d))
  {
  }

  lemma FetchParses(c: Config, now: int, clock: int, read: Project)
    requires Parseable(c.lib, read.annotations)
    ensures PhaseParses(c, AfterFetch(c, now, clock, read))
  {
    var p := read.(status := read.status.(namespace := NamespaceName(c, read.name)));
    EnterParses(c, now, clock, p, Start(JobFor(c, p)));
  }

  lemma ResumeParses(c: Config, now: int, clock: int, phase: Phase, pick: string, reply: Reply)
    requires PhaseParses(c, phase)
    requires reply.GotProject? ==> Parseable(c.lib, reply.project.annotations)
    ensures PhaseParses(c, ResumePhase(c, now, clock, phase, pick, reply))
  {
    match phase
    case Fetching =>
      if reply.GotProject? {
        FetchParses(c, now, clock, reply.project);
      }
    case Deploying(p, d) => EnterParses(c, now, clock, p, DeployStep(JobFor(c, p), d, pick, reply));
    case _ =>
  }

  lemma ActParses(c: Config, s: Server, a: Action, user: UserInfo, review: Review -> Answer)
    requires StoredParse(c, s) && Admits(c, s, a, user, review)
    ensures StoredParse(c, Act(s, a))
  {
  }

  lemma AllowParses(c: Config, sys: System, a: Attempt)
    requires AllParse(c, sys)
    ensures AllParse(c, Allow(c, sys, a))
  {
    match a.step
    case Environment(action) =>
      if Admits(c, sys.server, action, a.user, a.review) {
        ActParses(c, sys.server, action, a.user, a.review);
      }
    case Begin(_, _) =>
    case Advance(n, clock, pick, fate) =>
      if Running(sys, n) {
        var l := sys.active[n];
        var call := PendingCall(c, n, l, pick);
        if call.Some? {
          ApplyParses(c, sys.server, call.value);
        }
        ResumeParses(c, l.now, clock, l.phase, pick, Exchange(c, sys.server, n, l, pick, fate).1);
      }
  }

  lemma {:induction false} TtlsKeepParsing(c: Config, sys: System, attempts: seq<Attempt>)
    requires AllParse(c, sys)
    ensures AllParse(c, AllowAll(c, sys, attempts))
    decreases |attempts|
  {
    if attempts != [] {
      AllowParses(c, sys, attempts[0]);
      TtlsKeepParsing(c, Allow(c, sys, attempts[0]), attempts[1..]);
    }
  }

  /** Behind the webhook the controller's parse-error branch is dead: over every run from the start,
      however requests and reconciliations interleave, the TTL of every stored project and of every
      project in flight parses, so the deferred block passes the error on as it is. */
  lemma EveryTtlParses(c: Config, start: System, attempts: seq<Attempt>)
    requires Initial(c, start)
    ensures AllParse(c, AllowAll(c, start, attempts))
    ensures var next := AllowAll(c, start, attempts);
            forall n, err | n in next.active && InFlight(next.active[n].phase).Some? ::
              Checked(c, InFlight(next.active[n].phase).value, err) == err
  {
    TtlsKeepParsing(c, start, attempts);
  }

  // ---- Outsiders change nothing -------------------------------------------------------------

  /** The attempt is not a request on p that p, as it is now, entitles its author to. */
  predicate Outside(c: Config, p: Project, a: Attempt) {
    match a.step
    case Environment(EditProject(n, _, _, _)) =>
      n == p.name ==> !Entitled(c, p.name, p.spec, a.user, UpdateOp, a.review)
    case Environment(DeleteProject(n)) => n == p.name ==> !Entitled(c, p.name, p.spec, a.user, DeleteOp, a.review)
    case _ => true
  }

  /** What users decide about a project is as in p; foreign finalizers are theirs, too. */
  predicate SameWill(p: Project, q: Project) {
    && q.name == p.name && q.uid == p.uid && q.generation == p.generation && q.deleting == p.deleting
    && q.annotations == p.annotations && q.spec == p.spec && q.creation == p.creation
    && SameForeign(p, q)
  }

  /** While p's UID is in the store, it is there as users left it; and unless it is being deleted, it
      is there. */
  ghost predicate Untouched(s: Server, p: Project) {
    && p.uid in s.issued && s.issued[p.uid] == p.name
    && (p.name in s.projects && s.projects[p.name].uid == p.uid ==> SameWill(p, s.projects[p.name]))
    && (!p.deleting ==> p.name in s.projects && s.projects[p.name].uid == p.uid)
  }

  lemma ActUntouched(c: Config, s: Server, a: Attempt, p: Project)
    requires ServerOk(s) && Untouched(s, p) && Outside(c, p, a) && a.step.Environment?
    requires Admits(c, s, a.step.action, a.user, a.review)
    ensures Untouched(Act(s, a.step.action), p)
  {
  }

  /** The operator writes a project back only as it has read it. */
  predicate WritesBack(s: Server, call: Call) {
    call.UpdateProject? && UpToDate(s, call.project) ==>
      && call.project.spec == s.projects[call.project.name].spec
      && call.project.annotations == s.projects[call.project.name].annotations
      && SameForeign(call.project, s.projects[call.project.name])
  }

  /** The finalizers other than the operator's are the same. */
  predicate SameForeign(p: Project, q: Project) {
    q.finalizers - {ProjectFinalizer} == p.finalizers - {ProjectFinalizer}
  }

  /** The project an update call writes back. */
  function Written(phase: Phase): Option<Project> {
    match phase
    case AddingFinalizer(p) => Some(p)
    case RemovingFinalizer(p) => Some(p)
    case _ => None
  }

  lemma UpdateIsWritten(c: Config, n: string, l: Local, pick: string, q: Project)
    requires PendingCall(c, n, l, pick) == Some(UpdateProject(q))
    ensures Written(l.phase).Some?
    ensures var p := Written(l.phase).value;
            && q.name == p.name && q.spec == p.spec && q.annotations == p.annotations
            && q.resourceVersion == p.resourceVersion && SameForeign(q, p)
  {
  }

  lemma WrittenAsRead(c: Config, s: Server, n: string, phase: Phase)
    requires PhaseOk(c, s, n, phase) && Written(phase).Some?
    ensures var p := Written(phase).value;
            && p.name == n
            && (SameVersion(s, n, p) ==> p.spec == s.projects[n].spec && p.annotations == s.projects[n].annotations
                                         && SameForeign(p, s.projects[n]))
  {
  }

  lemma OperatorWritesBack(c: Config, s: Server, n: string, l: Local, pick: string, call: Call)
    requires PhaseOk(c, s, n, l.phase) && PendingCall(c, n, l, pick) == Some(call)
    ensures WritesBack(s, call)
  {
    if call.UpdateProject? {
      UpdateIsWritten(c, n, l, pick, call.project);
      WrittenAsRead(c, s, n, l.phase);
    }
  }

  lemma CallUntouched(s: Server, p: Project, call: Call)
    requires ServerOk(s) && WritesBack(s, call) && Untouched(s, p)
    ensures Untouched(Apply(s, call).0, p)
  {
    hide WorkKey, Build;
  }

  lemma AllowUntouched(c: Config, sys: System, a: Attempt, p: Project)
    requires Inv(c, sys) && Untouched(sys.server, p) && Outside(c, p, a)
    ensures Untouched(Allow(c, sys, a).server, p)
  {
    match a.step
    case Environment(action) =>
      if Admits(c, sys.server, action, a.user, a.review) {
        ActUntouched(c, sys.server, a, p);
      }
    case Begin(_, _) =>
    case Advance(n, clock, pick, fate) =>
      if Running(sys, n) {
        var call := PendingCall(c, n, sys.active[n], pick);
        if call.Some? {
          OperatorWritesBack(c, sys.server, n, sys.active[n], pick, call.value);
          CallUntouched(sys.server, p, call.value);
        }
      }
  }

  /** Over every run behind the webhook, attempts to update or delete a project by identities it does
      not entitle never change it, whatever those attempts try to write and however the operator and
      requests on other projects interleave: judging against the stored project leaves no way in. */
  lemma {:induction false} OutsidersChangeNothing(c: Config, sys: System, attempts: seq<Attempt>, p: Project)
    requires Inv(c, sys) && Untouched(sys.server, p)
    requires forall a | a in attempts :: Outside(c, p, a)
    ensures Untouched(AllowAll(c, sys, attempts).server, p)
    decreases |attempts|
  {
    if attempts != [] {
      AllowKeeps(c, sys, attempts[0]);
      AllowUntouched(c, sys, attempts[0], p);
      OutsidersChangeNothing(c, Allow(c, sys, attempts[0]), attempts[1..], p);
    }
  }

  lemma AllowFirst(c: Config, sys: System, attempts: seq<Attempt>, i: nat)
    requires 0 < i <= |attempts|
    ensures AllowAll(c, sys, attempts[..i]) == AllowAll(c, Allow(c, sys, attempts[0]), attempts[1..][..i - 1])
  {
    assert attempts[..i][1..] == attempts[1..][..i - 1];
  }

  /** So the first attempt that changes a project is by somebody the project, as it stood before the run,
      entitled to it: nothing before it has changed the project, and it does. */
  lemma {:induction false} FirstChangeIsByInsider(c: Config, sys: System, attempts: seq<Attempt>, p: Project)
    returns (i: nat)
    requires Inv(c, sys) && Untouched(sys.server, p)
    requires !Untouched(AllowAll(c, sys, attempts).server, p)
    ensures i < |attempts| && !Outside(c, p, attempts[i])
    ensures Untouched(AllowAll(c, sys, attempts[..i]).server, p)
    ensures !Untouched(AllowAll(c, sys, attempts[..i + 1]).server, p)
    decreases |attempts|
  {
    hide WorkKey, Build;
    AllowKeeps(c, sys, attempts[0]);
    if !Untouched(Allow(c, sys, attempts[0]).server, p) {
      i := 0;
      if Outside(c, p, attempts[0]) {
        AllowUntouched(c, sys, attempts[0], p);
      }
      AllowFirst(c, sys, attempts, 1);
    } else {
      var j := FirstChangeIsByInsider(c, Allow(c, sys, attempts[0]), attempts[1..], p);
      i := j + 1;
      AllowFirst(c, sys, attempts, i);
      AllowFirst(c, sys, attempts, i + 1);
    }
  }

  // ---- The documented permission ------------------------------------------------------------

  /** The documentation promises access to whoever may update or delete the namespace. */
  predicate Documented(c: Config, name: string, spec: Spec, user: UserInfo, operation: Operation,
                       review: Review -> Answer) {
    || Exempt(spec, user)
    || review(ReviewOf(c, name, user, if operation == UpdateOp then "update" else "delete")) == Allowed
  }

  /** The code asks for other verbs: a user allowed exactly the documented ones is refused, and one
      allowed exactly the verbs asked for is let in. */
  lemma DocumentedVerbsNotConsulted(c: Config, name: string, spec: Spec, operation: Operation)
    requires spec.adminUsers == [] && spec.adminGroups == []
    ensures var jane := UserInfo("1", "jane", []);
            var documented := (r: Review) => if r.verb in {"update", "delete"} then Allowed else Denied;
            && Documented(c, name, spec, jane, operation, documented)
            && !Entitled(c, name, spec, jane, operation, documented)
    ensures var jane := UserInfo("1", "jane", []);
            var asked := (r: Review) => if r.verb in {"PUT", "DELETE"} then Allowed else Denied;
            && Entitled(c, name, spec, jane, operation, asked)
            && !Documented(c, name, spec, jane, operation, asked)
  {
    assert |"PUT"| == 3 && |"update"| == 6 && |"delete"| == 6;
    assert "DELETE"[0] != "delete"[0] && "DELETE"[0] != "update"[0];
    assert |"jane"| == 4 && |ServiceAccounts| > 4;
  }

  predicate SameAnswer(c: Config, name: string, user: UserInfo, review: Review -> Answer, verb: string,
                       documented: string) {
    review(ReviewOf(c, name, user, verb)).Allowed? <==> review(ReviewOf(c, name, user, documented)).Allowed?
  }

  /** For every identity other than service accounts, the cluster answers the verb asked for and the
      documented verb alike. */
  ghost predicate AnswersAlike(c: Config, review: Review -> Answer) {
    forall name, user: UserInfo | !(ServiceAccounts <= user.username) ::
      SameAnswer(c, name, user, review, "PUT", "update") && SameAnswer(c, name, user, review, "DELETE", "delete")
  }

  ghost predicate DoesAsDocumented(c: Config, review: Review -> Answer) {
    forall name, spec, user, operation | operation == UpdateOp || operation == DeleteOp ::
      Entitled(c, name, spec, user, operation, review) <==> Documented(c, name, spec, user, operation, review)
  }

  /** On a single request, code and documentation agree iff its author is exempt or the cluster answers
      the verb asked for like the documented one. */
  lemma RequestAsDocumentedIff(c: Config, name: string, spec: Spec, user: UserInfo, operation: Operation,
                               review: Review -> Answer)
    requires operation == UpdateOp || operation == DeleteOp
    ensures (Entitled(c, name, spec, user, operation, review) <==> Documented(c, name, spec, user, operation, review))
            <==>
            (|| Exempt(spec, user)
             || if operation == UpdateOp then SameAnswer(c, name, user, review, "PUT", "update")
                else SameAnswer(c, name, user, review, "DELETE", "delete"))
  {
  }

  /** The webhook does what the documentation says, on every project, iff the cluster answers alike. */
  lemma DocumentationHoldsIff(c: Config, review: Review -> Answer)
    ensures DoesAsDocumented(c, review) <==> AnswersAlike(c, review)
  {
    var open := Spec([], [], [], [], map[], map[]);
    if DoesAsDocumented(c, review) {
      forall name, user: UserInfo | !(ServiceAccounts <= user.username)
        ensures SameAnswer(c, name, user, review, "PUT", "update")
                && SameAnswer(c, name, user, review, "DELETE", "delete")
      {
        assert !Exempt(open, user);
        RequestAsDocumentedIff(c, name, open, user, UpdateOp, review);
        RequestAsDocumentedIff(c, name, open, user, DeleteOp, review);
      }
    }
    if AnswersAlike(c, review) {
      forall name, spec, user, operation | operation == UpdateOp || operation == DeleteOp
        ensures Entitled(c, name, spec, user, operation, review) <==> Documented(c, name, spec, user, operation, review)
      {
        RequestAsDocumentedIff(c, name, spec, user, operation, review);
        assert !Exempt(spec, user) ==> SameAnswer(c, name, user, review, "PUT", "update");
      }
    }
  }
}
