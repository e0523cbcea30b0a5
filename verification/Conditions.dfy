/** api/v1alpha1/project_types.go: the condition list of a project status. */
module Conditions {
  import opened Kubernetes

  const ConditionTypeReady := "Ready"

  /** The arguments of one SetCondition call and the instant at which it ran. */
  datatype Update = Update(ctype: string, status: ConditionStatus, reason: string, message: string, now: int)

  /** What one call does to the condition it addresses. */
  function Touch(cond: Condition, u: Update): Condition {
    Condition(cond.ctype, u.status,
              if u.status != cond.status then Some(u.now) else cond.lastTransitionTime,
              u.reason, u.message)
  }

  function Blank(ctype: string): Condition {
    Condition(ctype, Unset, None, "", "")
  }

  /** The condition list after one call: the first entry of the type is touched, or a new one appended. */
  function Upsert(conds: seq<Condition>, u: Update): seq<Condition> {
    if conds == [] then [Touch(Blank(u.ctype), u)]
    else if conds[0].ctype == u.ctype then [Touch(conds[0], u)] + conds[1..]
    else [conds[0]] + Upsert(conds[1..], u)
  }

  /** The status after SetReadyCondition. */
  function WithReady(s: Status, status: ConditionStatus, state: State, message: string, now: int): Status {
    s.(conditions := Upsert(s.conditions, Update(ConditionTypeReady, status, state.Text(), message, now)),
       state := state)
  }

  function Find(conds: seq<Condition>, t: string): Option<Condition> {
    if conds == [] then None
    else if conds[0].ctype == t then Some(conds[0])
    else Find(conds[1..], t)
  }

  /** st is st0 with its state set, and its Ready condition telling the state, with this status and
      message; the transition time moves iff the condition's status changes. */
  ghost predicate Notes(st: Status, st0: Status, state: State, reason: string, status: ConditionStatus,
                        message: string, clock: int) {
    && st.state == state && st.observedGeneration == st0.observedGeneration
    && st.lastObservedAt == st0.lastObservedAt && st.namespace == st0.namespace
    && Find(st.conditions, "Ready")
       == Some(Condition("Ready", status, TransitionTime(st0, status, clock), reason, message))
    && forall t | t != "Ready" :: Find(st.conditions, t) == Find(st0.conditions, t)
  }

  /** When the Ready condition got this status. */
  function TransitionTime(st0: Status, status: ConditionStatus, clock: int): Option<int> {
    match Find(st0.conditions, "Ready")
    case Some(was) => if was.status == status then was.lastTransitionTime else Some(clock)
    case None => if status == Unset then None else Some(clock)
  }

  class ProjectStatus {
    var observedGeneration: int
    var lastObservedAt: Option<int>
    var conditions: seq<Condition>
    var state: State
    var namespace: string

    function Value(): Status
      reads this
    {
      Status(observedGeneration, lastObservedAt, conditions, state, namespace)
    }

    constructor (s: Status)
      ensures Value() == s
    {
      observedGeneration, lastObservedAt := s.observedGeneration, s.lastObservedAt;
      conditions, state, namespace := s.conditions, s.state, s.namespace;
    }

    /** Takes over the status of a server reply. */
    method Load(s: Status)
      modifies this
      ensures Value() == s
    {
      observedGeneration, lastObservedAt := s.observedGeneration, s.lastObservedAt;
      conditions, state, namespace := s.conditions, s.state, s.namespace;
    }

    method SetCondition(condType: string, condStatus: ConditionStatus, reason: string, message: string, now: int)
      returns (cond: Condition)
      modifies this`conditions
      ensures conditions == Upsert(old(conditions), Update(condType, condStatus, reason, message, now))
      ensures cond in conditions && cond.ctype == condType && cond.status == condStatus
      ensures cond.reason == reason && cond.message == message
    {
      var i := 0;
      while i < |conditions| && conditions[i].ctype != condType
        invariant 0 <= i <= |conditions|
        invariant forall j | 0 <= j < i :: conditions[j].ctype != condType
      {
        i := i + 1;
      }
      UpsertAt(conditions, Update(condType, condStatus, reason, message, now), i);
      if i == |conditions| {
        conditions := conditions + [Condition(condType, Unset, None, "", "")];
      }
      cond := conditions[i];
      if condStatus != cond.status {
        cond := cond.(status := condStatus, lastTransitionTime := Some(now));
      }
      cond := cond.(reason := reason, message := message);
      conditions := conditions[i := cond];
      assert conditions[i] == cond;
    }

    method SetReadyCondition(condStatus: ConditionStatus, state: State, message: string, now: int)
      modifies this`conditions, this`state
      ensures Value() == WithReady(old(Value()), condStatus, state, message, now)
      ensures Notes(Value(), old(Value()), state, state.Text(), condStatus, message, now)
    {
      WithReadyNotes(Value(), condStatus, state, message, now);
      var _ := SetCondition(ConditionTypeReady, condStatus, state.Text(), message, now);
      this.state := state;
    }
  }

  lemma {:induction false} UpsertAt(conds: seq<Condition>, u: Update, i: nat)
    requires i <= |conds| && forall j | 0 <= j < i :: conds[j].ctype != u.ctype
    requires i < |conds| ==> conds[i].ctype == u.ctype
    ensures i < |conds| ==> Upsert(conds, u) == conds[i := Touch(conds[i], u)]
    ensures i == |conds| ==> Upsert(conds, u) == conds + [Touch(Blank(u.ctype), u)]
  {
    if conds != [] && i > 0 {
      UpsertAt(conds[1..], u, i - 1);
    }
  }

  // ---- Histories of calls -------------------------------------------------------------------

  /** The condition list after a history of calls on a fresh status. */
  function Replay(h: seq<Update>): seq<Condition> {
    if h == [] then [] else Upsert(Replay(h[..|h| - 1]), h[|h| - 1])
  }

  ghost predicate UniqueTypes(conds: seq<Condition>) {
    forall i, j | 0 <= i < j < |conds| :: conds[i].ctype != conds[j].ctype
  }

  /** The status most recently requested for type t by the first n calls. */
  function Requested(h: seq<Update>, t: string, n: nat): ConditionStatus
    requires n <= |h|
  {
    if n == 0 then Unset
    else if h[n - 1].ctype == t then h[n - 1].status
    else Requested(h, t, n - 1)
  }

  /** Call i asked for another status of type t than the calls before it. */
  predicate Changes(h: seq<Update>, t: string, i: nat)
    requires i < |h|
  {
    h[i].ctype == t && h[i].status != Requested(h, t, i)
  }

  ghost predicate IsLastCall(h: seq<Update>, t: string, i: nat)
    requires i < |h|
  {
    h[i].ctype == t && forall j | i < j < |h| :: h[j].ctype != t
  }

  predicate Repeats(cond: Condition, u: Update) {
    cond.status == u.status && cond.reason == u.reason && cond.message == u.message
  }

  ghost predicate HasCondition(conds: seq<Condition>, t: string) {
    exists c :: c in conds && c.ctype == t
  }

  ghost predicate Addressed(h: seq<Update>, t: string) {
    exists u :: u in h && u.ctype == t
  }

  /** The condition records the history of its type: the latest call gives status, reason and
      message, and the transition time is that of the latest call which changed the status. */
  ghost predicate Records(cond: Condition, h: seq<Update>, t: string) {
    && cond.ctype == t
    && (exists i: nat | i < |h| :: IsLastCall(h, t, i) && Repeats(cond, h[i]))
    && match cond.lastTransitionTime
       case None => forall i: nat | i < |h| :: !Changes(h, t, i)
       case Some(x) => exists i: nat | i < |h| :: Changes(h, t, i) && h[i].now == x
                         && forall j | i < j < |h| :: !Changes(h, t, j)
  }

  lemma {:induction false} FindUpsert(conds: seq<Condition>, u: Update, t: string)
    ensures Find(Upsert(conds, u), t) ==
            if t != u.ctype then Find(conds, t)
            else Some(Touch(match Find(conds, t) case None => Blank(t) case Some(c) => c, u))
  {
    if conds != [] && conds[0].ctype != u.ctype {
      FindUpsert(conds[1..], u, t);
      assert Upsert(conds, u)[1..] == Upsert(conds[1..], u);
    } else if conds != [] {
      assert Upsert(conds, u)[1..] == conds[1..];
    }
  }

  lemma {:induction false} RequestedPrefix(h: seq<Update>, u: Update, t: string, n: nat)
    requires n <= |h|
    ensures Requested(h + [u], t, n) == Requested(h, t, n)
  {
    if n > 0 {
      RequestedPrefix(h, u, t, n - 1);
    }
  }

  lemma ChangesPrefix(h: seq<Update>, u: Update, t: string)
    ensures forall i: nat | i < |h| :: Changes(h + [u], t, i) <==> Changes(h, t, i)
    ensures Changes(h + [u], t, |h|) <==> u.ctype == t && u.status != Requested(h, t, |h|)
  {
    forall i: nat | i <= |h| {
      RequestedPrefix(h, u, t, i);
    }
  }

  ghost predicate Told(h: seq<Update>, t: string) {
    match Find(Replay(h), t)
    case None => Requested(h, t, |h|) == Unset && forall i: nat | i < |h| :: h[i].ctype != t
    case Some(c) => c.status == Requested(h, t, |h|) && Records(c, h, t)
  }

  lemma ToldStep(h: seq<Update>, u: Update, t: string)
    requires Told(h, t)
    ensures Told(h + [u], t)
  {
    var g := h + [u];
    assert g[..|g| - 1] == h;
    FindUpsert(Replay(h), u, t);
    RequestedPrefix(h, u, t, |h|);
    ChangesPrefix(h, u, t);
    if u.ctype == t {
      var c := Find(Replay(g), t).value;
      assert IsLastCall(g, t, |h|);
      if !Changes(g, t, |h|) {
        match Find(Replay(h), t)
        case None => assert forall i: nat | i < |h| :: !Changes(h, t, i);
        case Some(b) => KeepTransition(h, u, t, b);
      }
    } else if Find(Replay(h), t).Some? {
      var c := Find(Replay(h), t).value;
      var i: nat :| i < |h| && IsLastCall(h, t, i) && Repeats(c, h[i]);
      assert IsLastCall(g, t, i) && g[i] == h[i];
      KeepTransition(h, u, t, c);
    }
  }

  lemma KeepTransition(h: seq<Update>, u: Update, t: string, c: Condition)
    requires Records(c, h, t) && !Changes(h + [u], t, |h|)
    ensures match c.lastTransitionTime
            case None => forall i: nat | i < |h + [u]| :: !Changes(h + [u], t, i)
            case Some(x) => exists i: nat | i < |h + [u]| :: Changes(h + [u], t, i) && (h + [u])[i].now == x
                              && forall j | i < j < |h + [u]| :: !Changes(h + [u], t, j)
  {
    var g := h + [u];
    ChangesPrefix(h, u, t);
    if c.lastTransitionTime.Some? {
      var i: nat :| i < |h| && Changes(h, t, i) && h[i].now == c.lastTransitionTime.value
        && forall j | i < j < |h| :: !Changes(h, t, j);
      assert g[i] == h[i] && Changes(g, t, i);
      forall j | i < j < |g| ensures !Changes(g, t, j) {
        if j < |h| {
          assert Changes(g, t, j) <==> Changes(h, t, j);
        }
      }
    } else {
      forall i: nat | i < |g| ensures !Changes(g, t, i) {
        if i < |h| {
          assert Changes(g, t, i) <==> Changes(h, t, i);
        }
      }
    }
  }

  lemma {:induction false} ToldAlways(h: seq<Update>, t: string)
    ensures Told(h, t)
  {
    if h != [] {
      var g := h[..|h| - 1];
      ToldAlways(g, t);
      ToldStep(g, h[|h| - 1], t);
      assert g + [h[|h| - 1]] == h;
    }
  }

  lemma {:induction false} UpsertUnique(conds: seq<Condition>, u: Update)
    requires UniqueTypes(conds)
    ensures UniqueTypes(Upsert(conds, u))
    ensures forall c | c in Upsert(conds, u) :: c.ctype == u.ctype || c in conds
  {
    if conds != [] && conds[0].ctype != u.ctype {
      assert forall c | c in conds[1..] :: c.ctype != conds[0].ctype;
      UpsertUnique(conds[1..], u);
    }
  }

  lemma {:induction false} ReplayUnique(h: seq<Update>)
    ensures UniqueTypes(Replay(h))
  {
    if h != [] {
      ReplayUnique(h[..|h| - 1]);
      UpsertUnique(Replay(h[..|h| - 1]), h[|h| - 1]);
    }
  }

  lemma {:induction false} FindIn(conds: seq<Condition>, i: nat)
    requires UniqueTypes(conds) && i < |conds|
    ensures Find(conds, conds[i].ctype) == Some(conds[i])
  {
    if i > 0 {
      assert conds[0].ctype != conds[i].ctype;
      FindIn(conds[1..], i - 1);
    }
  }

  lemma {:induction false} FindNone(conds: seq<Condition>, t: string)
    requires Find(conds, t).None?
    ensures forall c | c in conds :: c.ctype != t
  {
    if conds != [] {
      FindNone(conds[1..], t);
    }
  }

  /** After any history of calls: one condition per type ever addressed and none for any other
      type, each recording the history of its type. */
  lemma HistoryCoherent(h: seq<Update>)
    ensures UniqueTypes(Replay(h))
    ensures forall c | c in Replay(h) :: Records(c, h, c.ctype)
    ensures forall t :: HasCondition(Replay(h), t) <==> Addressed(h, t)
  {
    ReplayUnique(h);
    forall c | c in Replay(h) ensures Records(c, h, c.ctype) {
      var i: nat :| i < |Replay(h)| && Replay(h)[i] == c;
      FindIn(Replay(h), i);
      ToldAlways(h, c.ctype);
    }
    forall t ensures HasCondition(Replay(h), t) <==> Addressed(h, t) {
      ToldAlways(h, t);
      match Find(Replay(h), t) {
        case None =>
          FindNone(Replay(h), t);
          assert forall u | u in h :: u.ctype != t;
        case Some(c) =>
          FoundIn(Replay(h), t);
          var i: nat :| i < |h| && IsLastCall(h, t, i);
          assert h[i] in h;
      }
    }
  }

  lemma {:induction false} FoundIn(conds: seq<Condition>, t: string)
    requires Find(conds, t).Some?
    ensures Find(conds, t).value in conds && Find(conds, t).value.ctype == t
  {
    if conds[0].ctype != t {
      FoundIn(conds[1..], t);
    }
  }

  lemma WithReadyNotes(s: Status, status: ConditionStatus, state: State, message: string, now: int)
    ensures Notes(WithReady(s, status, state, message, now), s, state, state.Text(), status, message, now)
  {
    var u := Update("Ready", status, state.Text(), message, now);
    forall t {
      FindUpsert(s.conditions, u, t);
    }
    if Find(s.conditions, "Ready").Some? {
      FoundIn(s.conditions, "Ready");
    }
  }

  // ---- The invariant the controller keeps ---------------------------------------------------

  /** The condition status that goes with each overall state. */
  function StatusFor(s: State): ConditionStatus {
    match s
    case Ready => True
    case ErrorState => False
    case _ => Unknown
  }

  /** Either nothing was ever reported, or there is exactly the Ready condition and it agrees with
      the state. */
  predicate Coherent(s: Status) {
    || (s.state == NoState && s.conditions == [])
    || (&& s.state != NoState && |s.conditions| == 1
        && s.conditions[0].ctype == ConditionTypeReady
        && s.conditions[0].reason == s.state.Text()
        && s.conditions[0].status == StatusFor(s.state)
        && s.conditions[0].lastTransitionTime.Some?)
  }

  lemma WithReadyCoherent(s: Status, state: State, message: string, now: int)
    requires Coherent(s) && state != NoState
    ensures Coherent(WithReady(s, StatusFor(state), state, message, now))
  {
    var u := Update(ConditionTypeReady, StatusFor(state), state.Text(), message, now);
    if s.conditions != [] {
      assert Upsert(s.conditions, u) == [Touch(s.conditions[0], u)];
    }
  }
}
