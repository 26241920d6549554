/** Incidents, their versions and their transition log (InMemoryIncidentRepository), and the decision
    path that advances them. */
module IncidentRepository {
  import opened Options
  import opened DurableCore

  datatype WardenDecision = Undecided | Allow | Block | Escalate

  datatype IncidentOutcome =
    | Open | AuthorizedPlan | PlanBlocked | PlanEscalated | VerifiedImproved | RolledBackSafely
    | ManualReconciliationRequired | RecoveryRequired

  datatype Incident = Incident(
    incidentId: Id, correlationKey: Id, primaryEntity: Id, triggerEventId: Id,
    state: IncidentState, planVersion: int, warden: WardenDecision,
    verification: VerificationState, recovery: RecoveryState, outcome: IncidentOutcome,
    openedAt: int, updatedAt: int, closedAt: Option<int>, version: nat)

  datatype LogEntry = LogEntry(from: Option<IncidentState>, to: IncidentState, at: int)

  /** _TRANSITIONS. */
  predicate CanMove(from: IncidentState, to: IncidentState) {
    match from
    case Detected => to.Evaluating? || to.Blocked? || to.Cancelled?
    case Evaluating => to.Planned? || to.Blocked? || to.Failed? || to.Escalated?
    case Planned => to.WardenReview? || to.Blocked? || to.Cancelled?
    case WardenReview => to.Approved? || to.Blocked? || to.Escalated?
    case Approved => to.Mitigating? || to.Blocked? || to.Failed?
    case Mitigating => to.Verifying? || to.Failed? || to.Blocked?
    case Verifying => to.Recovering? || to.Resolved? || to.Failed? || to.Escalated?
    case Recovering => to.Resolved? || to.Failed? || to.Blocked?
    case Escalated => to.Recovering? || to.Cancelled? || to.Blocked?
    case _ => false
  }

  /** Where a state can be reached from, told from where it is. */
  predicate ReachedFrom(to: IncidentState, from: IncidentState) {
    match to
    case Detected => false
    case Evaluating => from == Detected
    case Planned => from == Evaluating
    case WardenReview => from == Planned
    case Approved => from == WardenReview
    case Mitigating => from == Approved
    case Verifying => from == Mitigating
    case Recovering => from == Verifying || from == Escalated
    case Resolved => from == Verifying || from == Recovering
    case Escalated => from == Evaluating || from == WardenReview || from == Verifying
    case Cancelled => from == Detected || from == Planned || from == Escalated
    case Failed => from == Evaluating || from == Approved || from == Mitigating || from == Verifying || from == Recovering
    case Blocked =>
      || from == Detected || from == Evaluating || from == Planned || from == WardenReview || from == Approved
      || from == Mitigating || from == Recovering || from == Escalated
  }

  lemma MovesExactly(from: IncidentState, to: IncidentState)
    ensures CanMove(from, to) <==> ReachedFrom(to, from)
  {}

  /** The incident in its new state, one version later; only a state without a way out closes it. */
  predicate MovedOn(before: Incident, after: Incident, to: IncidentState, at: int) {
    && after.state == to && after.version == before.version + 1 && after.updatedAt == at
    && after.closedAt == (if to == Resolved || to == Blocked || to == IncidentState.Failed || to == Cancelled then Some(at) else before.closedAt)
    && after.(state := before.state, version := before.version, updatedAt := before.updatedAt, closedAt := before.closedAt) == before
  }

  predicate Closed(s: IncidentState) { s.Resolved? || s.Blocked? || s.Failed? || s.Cancelled? }

  datatype Refusal = UnknownIncident | InvalidTransition | VersionConflict

  datatype Attempt<T> = Done(value: T) | Refused(why: Refusal)

  datatype IncidentStore = IncidentStore(items: map<Id, Incident>, log: map<Id, seq<LogEntry>>)
  {
    predicate IsActive(id: Id, correlation: Id) {
      id in items && items[id].correlationKey == correlation && !Closed(items[id].state)
    }

    /** What `find_active` returns, and what `create_or_get_active` reuses. */
    ghost function FindActive(correlation: Id): (r: Option<Id>)
      ensures r.Some? ==> IsActive(r.value, correlation)
      ensures r.None? ==> forall id <- items :: !IsActive(id, correlation)
    {
      if id :| id in items && IsActive(id, correlation) then Some(id) else None
    }

    ghost function CreateOrGetActive(i: Incident): (IncidentStore, Id) {
      match FindActive(i.correlationKey)
      case Some(id) => (this, id)
      case None =>
        (IncidentStore(items[i.incidentId := i], log[i.incidentId := [LogEntry(None, Detected, i.openedAt)]]), i.incidentId)
    }

    function Update(i: Incident, expected: nat): Attempt<IncidentStore> {
      if i.incidentId !in items || items[i.incidentId].version != expected then Refused(VersionConflict)
      else if i.state != items[i.incidentId].state then Refused(InvalidTransition)
      else Done(this.(items := items[i.incidentId := i.(version := expected + 1)]))
    }

    function Transition(id: Id, to: IncidentState, at: int): Attempt<IncidentStore> {
      if id !in items then Refused(UnknownIncident)
      else if !CanMove(items[id].state, to) then Refused(InvalidTransition)
      else Done(IncidentStore(
        items[id := Moved(items[id], to, at)],
        log[id := (if id in log then log[id] else []) + [LogEntry(Some(items[id].state), to, at)]]))
    }

    /** The walk of `_advance`, transition by transition. */
    function Advanced(id: Id, target: IncidentState, at: int): IncidentStore
      requires id in items && IsDecisionTarget(target) && CanAdvance(items[id].state, target)
      decreases StepsTo(items[id].state, target)
    {
      if items[id].state == target then this
      else Transition(id, NextOnPath(items[id].state, target), at).value.Advanced(id, target, at)
    }
  }

  function Moved(i: Incident, to: IncidentState, at: int): Incident {
    i.(state := to, updatedAt := at, version := i.version + 1, closedAt := if Closed(to) then Some(at) else i.closedAt)
  }

  // ---------------------------------------------------------------- invariant

  /** A log: opened in DETECTED, each entry leaving the state the entry before it reached. */
  ghost predicate IsPath(log: seq<LogEntry>) {
    && 0 < |log| && log[0].from.None? && log[0].to == Detected
    && forall i, j | 0 <= i < j < |log| && j == i + 1 :: log[j].from == Some(log[i].to) && CanMove(log[i].to, log[j].to)
  }

  ghost predicate Valid(s: IncidentStore) {
    && s.items.Keys == s.log.Keys
    && (forall id <- s.items ::
        s.items[id].incidentId == id && IsPath(s.log[id]) && s.log[id][|s.log[id]| - 1].to == s.items[id].state)
    && OneActive(s)
  }

  /** At most one active incident per correlation key. */
  ghost predicate OneActive(s: IncidentStore) {
    forall a, b, k :: s.IsActive(a, k) && s.IsActive(b, k) ==> a == b
  }

  lemma FindsTheActive(s: IncidentStore, id: Id, correlation: Id)
    requires Valid(s) && s.IsActive(id, correlation)
    ensures s.FindActive(correlation) == Some(id)
  {}

  class IncidentRepository {
    var items: map<Id, Incident>
    var log: map<Id, seq<LogEntry>>

    function Store(): IncidentStore reads this { IncidentStore(items, log) }

    constructor ()
      ensures Store() == IncidentStore(map[], map[])
    {
      items, log := map[], map[];
    }

    /** The scan that `find_active` and `create_or_get_active` share. */
    method ScanActive(correlation: Id) returns (r: Option<Id>)
      requires Valid(Store())
      ensures r == Store().FindActive(correlation)
    {
      var todo := items.Keys;
      while todo != {}
        invariant todo <= items.Keys
        invariant forall id <- items.Keys - todo :: !Store().IsActive(id, correlation)
        decreases todo
      {
        var id :| id in todo;
        if items[id].correlationKey == correlation && !Closed(items[id].state) {
          FindsTheActive(Store(), id, correlation);
          return Some(id);
        }
        todo := todo - {id};
      }
      return None;
    }

    method CreateOrGetActive(i: Incident) returns (stored: Id, created: bool)
      requires Valid(Store()) && i.state.Detected?
      modifies this
      ensures (Store(), stored) == old(Store().CreateOrGetActive(i))
      ensures created <==> old(Store().FindActive(i.correlationKey)).None?
      ensures Valid(Store())
    {
      var existing := ScanActive(i.correlationKey);
      if existing.Some? {
        return existing.value, false;
      }
      CreateKeepsValid(Store(), i);
      items := items[i.incidentId := i];
      log := log[i.incidentId := [LogEntry(None, Detected, i.openedAt)]];
      return i.incidentId, true;
    }

    method Update(i: Incident, expected: nat) returns (r: Attempt<Incident>)
      modifies this`items
      ensures r.Done? <==> && i.incidentId in old(items) && old(items)[i.incidentId].version == expected
                           && old(items)[i.incidentId].state == i.state
      ensures r.Done? ==> items == old(items)[i.incidentId := i.(version := expected + 1)]
      ensures r.Refused? ==> old(Store().Update(i, expected)) == Refused(r.why) && Store() == old(Store())
      ensures r.Done? ==> old(Store().Update(i, expected)) == Done(Store()) && r.value == i.(version := expected + 1)
    {
      if i.incidentId !in items || items[i.incidentId].version != expected { return Refused(VersionConflict); }
      if i.state != items[i.incidentId].state { return Refused(InvalidTransition); }
      var stored := i.(version := expected + 1);
      items := items[i.incidentId := stored];
      return Done(stored);
    }

    method MoveTo(id: Id, to: IncidentState, at: int) returns (r: Attempt<Incident>)
      requires items.Keys == log.Keys
      modifies this
      ensures items.Keys == log.Keys
      ensures r.Refused? ==> old(Store().Transition(id, to, at)) == Refused(r.why) && Store() == old(Store())
      ensures r.Done? ==> old(Store().Transition(id, to, at)) == Done(Store()) && id in items && r.value == items[id]
      ensures r.Done? <==> id in old(items) && ReachedFrom(to, old(items)[id].state)
      ensures r.Done? ==> MovedOn(old(items)[id], r.value, to, at) && log[id] == old(log)[id] + [LogEntry(Some(old(items)[id].state), to, at)]
    {
      if id in items { MovesExactly(items[id].state, to); }
      if id !in items { return Refused(UnknownIncident); }
      if !CanMove(items[id].state, to) { return Refused(InvalidTransition); }
      var entry := LogEntry(Some(items[id].state), to, at);
      items := items[id := Moved(items[id], to, at)];
      log := log[id := log[id] + [entry]];
      return Done(items[id]);
    }

    /** `_advance`: walks the decision path to its target, or raises without having changed anything. */
    method Advance(id: Id, target: IncidentState, at: int) returns (reached: bool)
      requires items.Keys == log.Keys && id in items && IsDecisionTarget(target)
      modifies this
      ensures reached <==> CanAdvance(old(items[id]).state, target)
      ensures Store() == if reached then old(Store().Advanced(id, target, at)) else old(Store())
    {
      while items[id].state != target
        invariant items.Keys == log.Keys && id in items
        invariant CanAdvance(items[id].state, target) <==> CanAdvance(old(items[id]).state, target)
        invariant Store() == old(Store()) || CanAdvance(items[id].state, target)
        invariant CanAdvance(items[id].state, target) ==>
                    Store().Advanced(id, target, at) == old(Store().Advanced(id, target, at))
        decreases StepsTo(items[id].state, target)
      {
        if !OnDecisionPath(items[id].state) { return false; }
        var moved := MoveTo(id, NextOnPath(items[id].state, target), at);
      }
      return true;
    }
  }

  // ---------------------------------------------------------------- the decision path

  predicate OnDecisionPath(s: IncidentState) { s.Detected? || s.Evaluating? || s.Planned? || s.WardenReview? }

  predicate IsDecisionTarget(s: IncidentState) { s.Approved? || s.Blocked? || s.Escalated? }

  predicate CanAdvance(s: IncidentState, target: IncidentState) { OnDecisionPath(s) || s == target }

  function NextOnPath(s: IncidentState, target: IncidentState): IncidentState
    requires OnDecisionPath(s)
  {
    match s case Detected => Evaluating case Evaluating => Planned case Planned => WardenReview case WardenReview => target
  }

  /** The number of transitions `_advance` has to make from `s`. */
  function StepsTo(s: IncidentState, target: IncidentState): nat {
    if s == target then 0
    else match s case Detected => 4 case Evaluating => 3 case Planned => 2 case WardenReview => 1 case _ => 0
  }

  /** A walk reaches its target and touches one incident. */
  lemma {:induction false} AdvanceReaches(s: IncidentStore, id: Id, target: IncidentState, at: int)
    requires id in s.items && IsDecisionTarget(target) && CanAdvance(s.items[id].state, target)
    ensures var t := s.Advanced(id, target, at);
            && t.items.Keys == s.items.Keys && t.items[id].state == target
            && t.items[id].version == s.items[id].version + StepsTo(s.items[id].state, target)
            && forall other <- s.items :: other != id ==> t.items[other] == s.items[other]
    decreases StepsTo(s.items[id].state, target)
  {
    if s.items[id].state != target {
      AdvanceReaches(s.Transition(id, NextOnPath(s.items[id].state, target), at).value, id, target, at);
    }
  }

  /** A walk renames nobody. */
  lemma {:induction false} AdvanceNames(s: IncidentStore, id: Id, target: IncidentState, at: int)
    requires id in s.items && IsDecisionTarget(target) && CanAdvance(s.items[id].state, target)
    ensures id in s.Advanced(id, target, at).items && s.Advanced(id, target, at).items[id].incidentId == s.items[id].incidentId
    decreases StepsTo(s.items[id].state, target)
  {
    if s.items[id].state != target {
      AdvanceNames(s.Transition(id, NextOnPath(s.items[id].state, target), at).value, id, target, at);
    }
  }

  /** A walk logs exactly the remaining transitions of the path. */
  lemma {:induction false} AdvanceLogs(s: IncidentStore, id: Id, target: IncidentState, at: int)
    requires s.items.Keys == s.log.Keys && id in s.items && IsDecisionTarget(target) && CanAdvance(s.items[id].state, target)
    ensures var t := s.Advanced(id, target, at);
            && t.log.Keys == s.log.Keys
            && |t.log[id]| == |s.log[id]| + StepsTo(s.items[id].state, target)
            && forall other <- s.log :: other != id ==> t.log[other] == s.log[other]
    decreases StepsTo(s.items[id].state, target)
  {
    if s.items[id].state != target {
      AdvanceLogs(s.Transition(id, NextOnPath(s.items[id].state, target), at).value, id, target, at);
    }
  }

  lemma {:induction false} AdvanceKeepsValid(s: IncidentStore, id: Id, target: IncidentState, at: int)
    requires Valid(s) && id in s.items && IsDecisionTarget(target) && CanAdvance(s.items[id].state, target)
    ensures Valid(s.Advanced(id, target, at))
    decreases StepsTo(s.items[id].state, target)
  {
    if s.items[id].state != target {
      var next := NextOnPath(s.items[id].state, target);
      TransitionKeepsValid(s, id, next, at);
      AdvanceKeepsValid(s.Transition(id, next, at).value, id, target, at);
    }
  }

  // ---------------------------------------------------------------- the transition graph

  /** Position in the graph: every transition goes strictly up, and 9 is the top. */
  function Rank(s: IncidentState): nat {
    match s
    case Detected => 0 case Evaluating => 1 case Planned => 2 case WardenReview => 3 case Approved => 4
    case Mitigating => 5 case Verifying => 6 case Escalated => 7 case Recovering => 8
    case _ => 9
  }

  lemma TransitionsClimb(a: IncidentState, b: IncidentState)
    requires CanMove(a, b)
    ensures Rank(a) < Rank(b) && !Closed(a)
  {}

  /** The log of an incident never has more than nine transitions. */
  lemma {:induction false} PathIsShort(log: seq<LogEntry>)
    requires IsPath(log)
    ensures |log| - 1 <= Rank(log[|log| - 1].to) <= 9
  {
    if |log| > 1 {
      PathIsShort(log[..|log| - 1]);
      TransitionsClimb(log[|log| - 2].to, log[|log| - 1].to);
    }
  }

  /** No state occurs twice, and nothing follows a closed state. */
  lemma {:induction false} PathClimbs(log: seq<LogEntry>, i: nat, j: nat)
    requires IsPath(log) && i < j < |log|
    ensures Rank(log[i].to) < Rank(log[j].to) && !Closed(log[i].to)
    decreases j
  {
    TransitionsClimb(log[j - 1].to, log[j].to);
    if i < j - 1 { PathClimbs(log, i, j - 1); }
  }

  // ---------------------------------------------------------------- runs

  datatype Op =
    | Create(incident: Incident)
    | Write(incident: Incident, expected: nat)
    | Move(id: Id, to: IncidentState, at: int)

  /** What callers pass: a new incident is DETECTED under a new id, and an update keeps the correlation key. */
  predicate Admissible(s: IncidentStore, op: Op) {
    match op
    case Create(i) => i.incidentId !in s.items && i.state.Detected?
    case Write(i, _) => i.incidentId in s.items ==> i.correlationKey == s.items[i.incidentId].correlationKey
    case Move(_, _, _) => true
  }

  ghost function Apply(s: IncidentStore, op: Op): IncidentStore {
    match op
    case Create(i) => s.CreateOrGetActive(i).0
    case Write(i, expected) => (match s.Update(i, expected) case Done(t) => t case Refused(_) => s)
    case Move(id, to, at) => (match s.Transition(id, to, at) case Done(t) => t case Refused(_) => s)
  }

  ghost predicate Run(states: seq<IncidentStore>, ops: seq<Op>) {
    && |states| == |ops| + 1 && states[0] == IncidentStore(map[], map[])
    && forall i | 0 <= i < |ops| :: Admissible(states[i], ops[i]) && states[i + 1] == Apply(states[i], ops[i])
  }

  lemma CreateKeepsValid(s: IncidentStore, i: Incident)
    requires Valid(s) && i.state.Detected?
    ensures Valid(s.CreateOrGetActive(i).0)
  {
    var t := s.CreateOrGetActive(i).0;
    forall a, b, k | t.IsActive(a, k) && t.IsActive(b, k)
      ensures a == b
    {
      assert a != i.incidentId ==> s.IsActive(a, k) || t == s;
      assert b != i.incidentId ==> s.IsActive(b, k) || t == s;
    }
  }

  lemma TransitionKeepsValid(s: IncidentStore, id: Id, to: IncidentState, at: int)
    requires Valid(s) && s.Transition(id, to, at).Done?
    ensures Valid(s.Transition(id, to, at).value)
  {
    TransitionsClimb(s.items[id].state, to);
    var t := s.Transition(id, to, at).value;
    forall a, b, k | t.IsActive(a, k) && t.IsActive(b, k)
      ensures a == b
    {
      assert s.IsActive(a, k) && s.IsActive(b, k);
    }
  }

  /** The same, for a transition that may be refused. */
  lemma TransitionIsValid(s: IncidentStore, id: Id, to: IncidentState, at: int)
    requires Valid(s)
    ensures s.Transition(id, to, at).Done? ==> Valid(s.Transition(id, to, at).value)
  {
    if s.Transition(id, to, at).Done? { TransitionKeepsValid(s, id, to, at); }
  }

  lemma ApplyKeepsValid(s: IncidentStore, op: Op)
    requires Valid(s) && Admissible(s, op)
    ensures Valid(Apply(s, op))
  {
    match op
    case Create(i) => CreateKeepsValid(s, i);
    case Write(i, expected) =>
      var t := Apply(s, op);
      forall a, b, k | t.IsActive(a, k) && t.IsActive(b, k)
        ensures a == b
      {
        assert s.IsActive(a, k) && s.IsActive(b, k);
      }
    case Move(id, to, at) => if s.Transition(id, to, at).Done? { TransitionKeepsValid(s, id, to, at); }
  }

  lemma {:induction false} RunIsValid(states: seq<IncidentStore>, ops: seq<Op>, n: nat)
    requires Run(states, ops) && n <= |ops|
    ensures Valid(states[n])
  {
    if n > 0 {
      RunIsValid(states, ops, n - 1);
      ApplyKeepsValid(states[n - 1], ops[n - 1]);
    }
  }

  /** In every run, at every moment: each incident's log is a path of at most nine transitions that
      ends in its state, and two active incidents never share a correlation key. */
  lemma LifecycleBounded(states: seq<IncidentStore>, ops: seq<Op>, n: nat, id: Id)
    requires Run(states, ops) && n <= |ops| && id in states[n].items
    ensures id in states[n].log && IsPath(states[n].log[id]) && |states[n].log[id]| <= 10
    ensures states[n].log[id][|states[n].log[id]| - 1].to == states[n].items[id].state
    ensures OneActive(states[n])
  {
    RunIsValid(states, ops, n);
    PathIsShort(states[n].log[id]);
  }

  /** A closed incident stays in its state, and its log never grows again. */
  lemma {:induction false} ClosedForever(states: seq<IncidentStore>, ops: seq<Op>, m: nat, n: nat, id: Id)
    requires Run(states, ops) && m <= n <= |ops|
    requires id in states[m].items && Closed(states[m].items[id].state)
    ensures id in states[n].items && states[n].items[id].state == states[m].items[id].state
    ensures id in states[m].log && id in states[n].log && states[n].log[id] == states[m].log[id]
    decreases n
  {
    RunIsValid(states, ops, m);
    if m < n { ClosedForever(states, ops, m, n - 1, id); }
  }

  /** Nine is reached: the longest life runs through review, mitigation, escalation and recovery. */
  lemma NineIsReached(at: int)
    ensures exists log :: IsPath(log) && |log| == 10
  {
    var t := (a: IncidentState, b: IncidentState) => LogEntry(Some(a), b, at);
    var log := [LogEntry(None, Detected, at), t(Detected, Evaluating), t(Evaluating, Planned), t(Planned, WardenReview),
                t(WardenReview, Approved), t(Approved, Mitigating), t(Mitigating, Verifying), t(Verifying, Escalated),
                t(Escalated, Recovering), t(Recovering, Resolved)];
    assert IsPath(log);
  }
}
