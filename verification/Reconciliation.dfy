/** Bounded, backed-off continuation of uncertain commands by safe reads (durable_reconciliation.py). */
module Reconciliation {
  import opened Options
  import opened DurableCore
  import opened IncidentRepository
  import opened OutboxRepository
  import opened Execution
  import Sorting = StableSort

  datatype Retry = Retry(maxAttempts: nat, baseBackoff: nat, maxBackoff: nat, deadlineSeconds: nat)
  {
    predicate Valid() { 1 <= maxAttempts && 1 <= baseBackoff && 1 <= maxBackoff && 1 <= deadlineSeconds }
  }

  predicate EligibleState(s: ActionState) { s.OutcomeUnknown? || s.ReconciliationRequired? || s.Acknowledged? }

  predicate Uncertain(s: ActionState) { s.OutcomeUnknown? || s.ReconciliationRequired? }

  // ---------------------------------------------------------------- stored attempts

  function RowsOf(w: World, id: Id): seq<ReadRecord> { if id in w.attempts then w.attempts[id] else [] }

  predicate SameRow(a: ReadRecord, b: ReadRecord) {
    if a.terminal then b.terminal else !b.terminal && a.attempt == b.attempt
  }

  /** `verification.save`: replaces the record of the same identity, or adds one. */
  function SaveRow(rows: seq<ReadRecord>, r: ReadRecord): seq<ReadRecord> {
    if rows == [] then [r]
    else if SameRow(rows[0], r) then [r] + rows[1..]
    else [rows[0]] + SaveRow(rows[1..], r)
  }

  predicate EarlierRow(a: ReadRecord, b: ReadRecord) {
    a.attempt < b.attempt || (a.attempt == b.attempt && a.updatedAt < b.updatedAt)
  }

  /** `_attempts`: ordered by attempt number, then by time. */
  function Attempts(w: World, id: Id): seq<ReadRecord> { Sorting.Sort(RowsOf(w, id), EarlierRow) }

  /** The number of attempts that are not the terminal marker. */
  function Count(rows: seq<ReadRecord>): nat {
    if rows == [] then 0 else Count(rows[..|rows| - 1]) + (if rows[|rows| - 1].terminal then 0 else 1)
  }

  function Pow2(n: nat): nat { if n == 0 then 1 else 2 * Pow2(n - 1) }

  /** `_backoff`. */
  function Backoff(count: nat, rs: Retry): nat {
    if count == 0 then 0
    else if rs.baseBackoff * Pow2(count - 1) < rs.maxBackoff then rs.baseBackoff * Pow2(count - 1) else rs.maxBackoff
  }

  /** `_deadline`: counted from the attempt, or from the request when there was none. */
  function Deadline(a: ActionCommand, rs: Retry): int {
    (if a.lastAttemptAt.Some? && a.lastAttemptAt.value != 0 then a.lastAttemptAt.value else a.requestedAt) + rs.deadlineSeconds
  }

  datatype Status = Terminal | NotEligible | EscalatedAlready | DeadlineReached | ReadyForReverification | InBackoff | Due

  /** The latest re-verification left the mitigation unproven. */
  predicate Unproven(w: World, id: Id, attempt: nat) {
    Reverify(id, attempt) in w.checks && w.checks[Reverify(id, attempt)].state.InsufficientEvidence?
  }

  /** `work_status`. */
  function WorkStatus(w: World, a: ActionCommand, rs: Retry, now: int): Status {
    var rows := Attempts(w, a.commandId);
    var count := Count(rows);
    if TerminalAction(a.state) then Terminal
    else if !EligibleState(a.state) then NotEligible
    else if rows != [] && rows[|rows| - 1].terminal then EscalatedAlready
    else if Deadline(a, rs) <= now || rs.maxAttempts <= count then DeadlineReached
    else if rows == [] then Due
    else
      var last := rows[|rows| - 1];
      if last.outcome.ProviderAvailable? then
        if Unproven(w, a.commandId, count) && now < w.checks[Reverify(a.commandId, count)].updatedAt + Backoff(count, rs)
        then InBackoff else ReadyForReverification
      else if now < last.updatedAt + Backoff(count, rs) then InBackoff else Due
  }

  // ---------------------------------------------------------------- writes

  /** `_update_action` of the reconciler: reads the current record, then writes it back. */
  function Rewrite(w: World, id: Id, state: ActionState, rid: Option<Id>, now: int): Eff<ActionCommand> {
    if id !in w.actions.byId then Raised(w) else UpdateAction(w, w.actions.byId[id], state, rid, now)
  }

  function SaveAttempt(w: World, a: ActionCommand, attempt: nat, outcome: ReadOutcome, terminal: bool,
                       now: int): World {
    var r := ReadRecord(a.commandId, a.incidentId, attempt, outcome, terminal, now);
    w.(attempts := w.attempts[a.commandId := SaveRow(RowsOf(w, a.commandId), r)])
  }

  /** `_transition_to_escalated`. */
  function EscalateIncident(w: World, incident: Id, now: int): World {
    MoveIncidentFrom(
      MoveIncidentFrom(MoveIncidentFrom(w, incident, Approved, Mitigating, now), incident, Mitigating, Verifying, now),
      incident, Verifying, IncidentState.Escalated, now)
  }

  /** `_save_terminal_escalation`. */
  function SaveTerminalEscalation(w: World, a: ActionCommand, count: nat, now: int): Eff<Then> {
    if exists r <- RowsOf(w, a.commandId) :: r.terminal then Ok(w, Stop)
    else if a.incidentId !in w.incidents.items then Raised(w)
    else HandOver(SaveAttempt(w, a, count, ManualRequired, true, now), a.incidentId, now)
  }

  /** The incident of an escalation goes to an operator. */
  function HandOver(w: World, incident: Id, now: int): Eff<Then> {
    var (w1, _) :- WriteIncident(EscalateIncident(w, incident, now), incident, Some(InsufficientEvidence),
                                 Some(ManualReconciliationRequired), None, now);
    Ok(w1, Stop)
  }

  /** `_read_capability`. */
  predicate CanRead(a: ActionCommand, s: Settings) {
    && (a.commandType.QodPlan? || a.commandType.GeofencePlan?) && a.providerResourceId.Some?
    && !s.mode.InvalidMode? && (s.mode.Fixture? || s.adapterLive)
  }

  // ---------------------------------------------------------------- segments

  /** Where the reconciler is after a segment. */
  datatype Then = Stop | AwaitRead(action: ActionCommand, attempt: nat) | AwaitReverify(action: ActionCommand, attempt: nat)

  datatype ReadAnswer =
    | Malformed
    | Resource(phase: Phase, resource: Option<Id>)  // ACCEPTED
    | NoResource                                    // FAILED
    | NoAnswer                                      // UNKNOWN, or the adapter raised

  datatype Phase = AvailablePhase | PendingPhase | OtherPhase

  function Classify(a: ActionCommand, r: ReadAnswer): ReadOutcome {
    match r
    case Malformed => MalformedResponse
    case Resource(AvailablePhase, _) => ProviderAvailable
    case Resource(PendingPhase, _) => WaitingForProvider
    case NoResource => if a.providerResourceId.Some? then ProviderNotFound else StillUnknown
    case _ => StillUnknown
  }

  /** Where the process dies, or a failure hook raises. */
  datatype Crash = NoCrash | BeforeRead | BeforePersist | AfterPersist | AfterReverify

  /** `reconcile_action`, up to its first await; a read that is not possible is answered without one. */
  function Begin(w: World, id: Id, s: Settings, rs: Retry, now: int, crash: Crash): Eff<Then> {
    if id !in w.actions.byId then Raised(w)
    else if w.actions.byId[id].incidentId !in w.incidents.items then Raised(w)
    else
      var a := w.actions.byId[id];
      if a.resourceKey in w.leases && w.leases[a.resourceKey].owned && w.leases[a.resourceKey].owner != a.incidentId
      then Ok(w, Stop)
      else Act(w, a, WorkStatus(w, a, rs, now), Count(Attempts(w, a.commandId)), s, now, crash)
  }

  /** What the work status asks for. */
  function Act(w: World, a: ActionCommand, status: Status, count: nat, s: Settings, now: int, crash: Crash): Eff<Then> {
    match status
    case DeadlineReached => SaveTerminalEscalation(w, a, count, now)
    case ReadyForReverification => BeginReverify(w, a, count, s, now, crash)
    case Due =>
      if crash.BeforeRead? then Raised(w)
      else if CanRead(a, s) then Ok(w, AwaitRead(a, count + 1))
      else FinishRead(w, a, count + 1, NoAnswer, now, if crash.BeforePersist? then NoCrash else crash)
    case _ => Ok(w, Stop)
  }

  /** A provider answer already on record is enough to go on to the verification. */
  function BeginReverify(w: World, a: ActionCommand, count: nat, s: Settings, now: int, crash: Crash): Eff<Then> {
    var (w1, current) :- if Uncertain(a.state) then Rewrite(w, a.commandId, Acknowledged, None, now) else Ok(w, a);
    Reverifying(w1, current, count, s, now, crash)
  }

  /** The start of `_reverify`; a new attempt is opened when the last verification left it unproven. */
  function Reverifying(w: World, a: ActionCommand, count: nat, s: Settings, now: int, crash: Crash): Eff<Then> {
    var again := Unproven(w, a.commandId, count);
    var attempt := if again then count + 1 else count;
    var w1 := if again then SaveAttempt(w, a, attempt, ProviderAvailable, false, now) else w;
    if CanRead(a, s) then Ok(w1, AwaitReverify(a, attempt)) else FinishReverify(w1, a, attempt, Unavailable, now, crash)
  }

  /** After `adapter.reconcile` answered. */
  function FinishRead(w: World, a: ActionCommand, attempt: nat, answer: ReadAnswer, now: int, crash: Crash): Eff<Then> {
    if crash.BeforePersist? then Raised(w)
    else
      var outcome := Classify(a, answer);
      var w1 := SaveAttempt(w, a, attempt, outcome, false, now);
      if crash.AfterPersist? then Raised(w1)
      else Follow(w1, a, if a.commandId in w1.actions.byId then w1.actions.byId[a.commandId] else a, attempt, outcome, answer, now)
  }

  /** What the recorded outcome does to the command. */
  function Follow(w: World, a: ActionCommand, current: ActionCommand, attempt: nat, outcome: ReadOutcome,
                  answer: ReadAnswer, now: int): Eff<Then>
    requires outcome.ProviderAvailable? ==> answer.Resource?
  {
    match outcome
    case ProviderAvailable =>
      var (w1, acked) :- if Uncertain(current.state)
                         then Rewrite(w, a.commandId, Acknowledged, answer.resource.Or(current.providerResourceId), now)
                         else Ok(w, current);
      Ok(w1, AwaitReverify(acked, attempt))
    case ProviderNotFound => ResourceGone(w, a, now)
    case _ =>
      var (w1, _) :- if current.state.OutcomeUnknown? then Rewrite(w, a.commandId, ReconciliationRequired, None, now) else Ok(w, current);
      Ok(w1, Stop)
  }

  /** The provider does not know the resource: the command has failed, and its incident goes to an operator. */
  function ResourceGone(w: World, a: ActionCommand, now: int): Eff<Then> {
    var (w1, _) :- Rewrite(w, a.commandId, ActionState.Failed, None, now);
    if a.incidentId !in w1.incidents.items then Raised(w1)
    else
      var (w2, _) :- WriteIncident(EscalateIncident(w1, a.incidentId, now), a.incidentId, None, Some(RecoveryRequired), None, now);
      Ok(w2, Stop)
  }

  /** The reconciler's reading of a verification outcome: a present resource alone proves nothing. */
  function ReverificationOf(v: VerifyAnswer): VerificationState {
    match v
    case VerifiedImproved => Improved
    case NoImprovement => Unchanged
    case VerifiedDegraded => Degraded
    case _ => InsufficientEvidence
  }

  /** After `adapter.verify` answered; a provenance mismatch is passed in as `Unavailable`. */
  function FinishReverify(w: World, a: ActionCommand, attempt: nat, v: VerifyAnswer, now: int,
                          crash: Crash): Eff<Then> {
    var state := ReverificationOf(v);
    var w1 := SaveCheck(w, Reverify(a.commandId, attempt), a.incidentId, v, state, now);
    if crash.AfterReverify? then Raised(w1)
    else
      var (w2, _) :- WriteIncident(w1, a.incidentId, Some(state), None, None, now);
      Conclude(w2, a, state, now)
  }

  /** What the recorded re-verification does to the command. */
  function Conclude(w: World, a: ActionCommand, state: VerificationState, now: int): Eff<Then>
    requires a.incidentId in w.incidents.items
  {
    if state.Improved? then
      var (w1, success) :- Rewrite(w, a.commandId, Success, None, now);
      Ok(MaybeResolve(w1, success.incidentId, success.planVersion, now), Stop)
    else if state.Unchanged? || state.Degraded? then
      var (w1, _) :- Rewrite(w, a.commandId, RollbackRequired, None, now);
      var row := NewRow(w1.incidents.items[a.incidentId].triggerEventId, ActionExecutionReady, now);
      Ok(w1.(outbox := AppendRow(w1.outbox, OutRollback(a.commandId), row)), Stop)
    else
      var current := if a.commandId in w.actions.byId then w.actions.byId[a.commandId] else a;
      if current.state.ReconciliationRequired? then Ok(w, Stop)
      else
        var (w1, _) :- Rewrite(w, a.commandId, ReconciliationRequired, None, now);
        Ok(w1, Stop)
  }
}
