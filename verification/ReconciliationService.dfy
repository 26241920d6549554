/** The reconciler in the form of its source: a service over the executor's repositories
    (durable_reconciliation.py).  Every method is proved against the function it implements. */
module ReconciliationService {
  import opened Options
  import opened DurableCore
  import IncidentRepository
  import OutboxRepository
  import E = Execution
  import R = Reconciliation
  import O = ReconciliationOutcomes
  import opened ExecutionService

  class DurableActionReconciliationService {
    const execution: DurableActionExecutionService
    const retry: R.Retry

    constructor (execution: DurableActionExecutionService, retry: R.Retry)
      ensures this.execution == execution && this.retry == retry
    {
      this.execution, this.retry := execution, retry;
    }

    /** `_update_action`: reads the current record, then writes it back. */
    method UpdateAction(id: Id, state: ActionState, rid: Option<Id>, now: int) returns (r: Option<ActionCommand>)
      requires execution.Valid()
      modifies execution.actions
      ensures execution.Valid()
      ensures var e := R.Rewrite(old(execution.World()), id, state, rid, now); execution.World() == e.world && r == ValueOf(e)
    {
      if id !in execution.actions.byId { return None; }
      r := execution.UpdateAction(execution.actions.byId[id], state, rid, now);
    }

    /** `_save_attempt`. */
    method SaveAttempt(a: ActionCommand, attempt: nat, outcome: E.ReadOutcome, terminal: bool, now: int)
      requires execution.Valid()
      modifies execution.verification
      ensures execution.Valid() && execution.World() == R.SaveAttempt(old(execution.World()), a, attempt, outcome, terminal, now)
    {
      execution.verification.SaveRead(E.ReadRecord(a.commandId, a.incidentId, attempt, outcome, terminal, now));
    }

    /** `_transition_to_escalated`. */
    method TransitionToEscalated(incident: Id, now: int)
      requires execution.Valid()
      modifies execution.incidents
      ensures execution.Valid() && execution.World() == R.EscalateIncident(old(execution.World()), incident, now)
    {
      execution.MoveIncidentFrom(incident, Approved, Mitigating, now);
      execution.MoveIncidentFrom(incident, Mitigating, Verifying, now);
      execution.MoveIncidentFrom(incident, Verifying, Escalated, now);
    }

    /** `_save_terminal_escalation`. */
    method SaveTerminalEscalation(a: ActionCommand, count: nat, now: int) returns (next: Option<R.Then>)
      requires execution.Valid()
      modifies execution.verification, execution.incidents
      ensures execution.Valid()
      ensures var e := R.SaveTerminalEscalation(old(execution.World()), a, count, now);
              execution.World() == e.world && next == ValueOf(e)
      ensures O.Escalates(old(execution.World()), execution.World(), a, next)
    {
      O.SaveTerminalEscalates(execution.World(), a, count, now, R.SaveTerminalEscalation(execution.World(), a, count, now));
      if exists r <- R.RowsOf(execution.World(), a.commandId) :: r.terminal { return Some(R.Stop); }
      if a.incidentId !in execution.incidents.items { return None; }
      SaveAttempt(a, count, E.ManualRequired, true, now);
      next := HandOver(a.incidentId, now);
    }

    /** The incident of an escalation goes to an operator. */
    method HandOver(incident: Id, now: int) returns (next: Option<R.Then>)
      requires execution.Valid()
      modifies execution.incidents
      ensures execution.Valid()
      ensures var e := R.HandOver(old(execution.World()), incident, now); execution.World() == e.world && next == ValueOf(e)
    {
      TransitionToEscalated(incident, now);
      var ok := execution.WriteIncident(incident, Some(InsufficientEvidence),
                                        Some(IncidentRepository.ManualReconciliationRequired), None, now);
      next := if ok then Some(R.Stop) else None;
    }

    /** `reconcile_action`, up to its first await. */
    method ReconcileAction(id: Id, now: int, crash: R.Crash) returns (next: Option<R.Then>)
      requires execution.Valid()
      modifies execution`journal, execution.actions, execution.incidents, execution.ownership, execution.verification, execution.outbox
      ensures execution.Valid()
      ensures var e := R.Begin(old(execution.World()), id, execution.settings, retry, now, crash);
              execution.World() == e.world && next == ValueOf(e)
      ensures O.Reconciles(old(execution.World()), execution.World(), id, next)
      ensures O.Considers(old(execution.World()), execution.World(), id, execution.settings, retry, now, crash, next)
    {
      O.BeginReconciles(execution.World(), id, execution.settings, retry, now, crash,
                        R.Begin(execution.World(), id, execution.settings, retry, now, crash));
      O.BeginConsiders(execution.World(), id, execution.settings, retry, now, crash,
                       R.Begin(execution.World(), id, execution.settings, retry, now, crash));
      if id !in execution.actions.byId { return None; }
      var a := execution.actions.byId[id];
      if a.incidentId !in execution.incidents.items { return None; }
      var leases := execution.ownership.leases;
      if a.resourceKey in leases && leases[a.resourceKey].owned && leases[a.resourceKey].owner != a.incidentId {
        return Some(R.Stop);
      }
      next := Act(a, R.WorkStatus(execution.World(), a, retry, now), R.Count(R.Attempts(execution.World(), a.commandId)), now, crash);
    }

    method Act(a: ActionCommand, status: R.Status, count: nat, now: int, crash: R.Crash) returns (next: Option<R.Then>)
      requires execution.Valid()
      modifies execution`journal, execution.actions, execution.incidents, execution.ownership, execution.verification, execution.outbox
      ensures execution.Valid()
      ensures var e := R.Act(old(execution.World()), a, status, count, execution.settings, now, crash);
              execution.World() == e.world && next == ValueOf(e)
    {
      match status {
        case DeadlineReached => next := SaveTerminalEscalation(a, count, now);
        case ReadyForReverification => next := BeginReverify(a, count, now, crash);
        case Due => next := MakeAttempt(a, count + 1, now, crash);
        case _ => next := Some(R.Stop);
      }
    }

    /** The next attempt, without a read when none is possible. */
    method MakeAttempt(a: ActionCommand, attempt: nat, now: int, crash: R.Crash) returns (next: Option<R.Then>)
      requires execution.Valid() && 0 < attempt
      modifies execution.actions, execution.incidents, execution.verification
      ensures execution.Valid()
      ensures var e := R.Act(old(execution.World()), a, R.Due, attempt - 1, execution.settings, now, crash);
              execution.World() == e.world && next == ValueOf(e)
    {
      if crash.BeforeRead? { return None; }
      if R.CanRead(a, execution.settings) { return Some(R.AwaitRead(a, attempt)); }
      next := FinishRead(a, attempt, R.NoAnswer, now, if crash.BeforePersist? then R.NoCrash else crash);
    }

    /** A provider answer already on record is enough to go on to the verification. */
    method BeginReverify(a: ActionCommand, count: nat, now: int, crash: R.Crash) returns (next: Option<R.Then>)
      requires execution.Valid()
      modifies execution`journal, execution.actions, execution.incidents, execution.ownership, execution.verification, execution.outbox
      ensures execution.Valid()
      ensures var e := R.BeginReverify(old(execution.World()), a, count, execution.settings, now, crash);
              execution.World() == e.world && next == ValueOf(e)
    {
      var current := a;
      if R.Uncertain(a.state) {
        var acked := UpdateAction(a.commandId, Acknowledged, None, now);
        if acked.None? { return None; }
        current := acked.value;
      }
      next := Reverifying(current, count, now, crash);
    }

    /** The start of `_reverify`. */
    method Reverifying(a: ActionCommand, count: nat, now: int, crash: R.Crash) returns (next: Option<R.Then>)
      requires execution.Valid()
      modifies execution`journal, execution.actions, execution.incidents, execution.ownership, execution.verification, execution.outbox
      ensures execution.Valid()
      ensures var e := R.Reverifying(old(execution.World()), a, count, execution.settings, now, crash);
              execution.World() == e.world && next == ValueOf(e)
    {
      var attempt := count;
      if R.Unproven(execution.World(), a.commandId, count) {
        attempt := count + 1;
        SaveAttempt(a, attempt, E.ProviderAvailable, false, now);
      }
      if R.CanRead(a, execution.settings) { return Some(R.AwaitReverify(a, attempt)); }
      next := FinishReverify(a, attempt, E.Unavailable, now, crash);
    }

    /** After `adapter.reconcile` answered. */
    method FinishRead(a: ActionCommand, attempt: nat, answer: R.ReadAnswer, now: int, crash: R.Crash)
      returns (next: Option<R.Then>)
      requires execution.Valid()
      modifies execution.actions, execution.incidents, execution.verification
      ensures execution.Valid()
      ensures var e := R.FinishRead(old(execution.World()), a, attempt, answer, now, crash);
              execution.World() == e.world && next == ValueOf(e)
      ensures O.RecordsRead(old(execution.World()), execution.World(), a, attempt, answer, next, now, crash)
    {
      O.FinishReadRecords(execution.World(), a, attempt, answer, now, crash, R.FinishRead(execution.World(), a, attempt, answer, now, crash));
      if crash.BeforePersist? { return None; }
      var outcome := R.Classify(a, answer);
      SaveAttempt(a, attempt, outcome, false, now);
      if crash.AfterPersist? { return None; }
      var current := if a.commandId in execution.actions.byId then execution.actions.byId[a.commandId] else a;
      next := Follow(a, current, attempt, outcome, answer, now);
    }

    /** What the recorded outcome does to the command. */
    method Follow(a: ActionCommand, current: ActionCommand, attempt: nat, outcome: E.ReadOutcome, answer: R.ReadAnswer,
                  now: int)
      returns (next: Option<R.Then>)
      requires execution.Valid() && (outcome.ProviderAvailable? ==> answer.Resource?)
      modifies execution.actions, execution.incidents
      ensures execution.Valid()
      ensures var e := R.Follow(old(execution.World()), a, current, attempt, outcome, answer, now);
              execution.World() == e.world && next == ValueOf(e)
    {
      match outcome {
        case ProviderAvailable =>
          if !R.Uncertain(current.state) { return Some(R.AwaitReverify(current, attempt)); }
          var acked := UpdateAction(a.commandId, Acknowledged, answer.resource.Or(current.providerResourceId), now);
          next := if acked.Some? then Some(R.AwaitReverify(acked.value, attempt)) else None;
        case ProviderNotFound => next := ResourceGone(a, now);
        case _ =>
          if !current.state.OutcomeUnknown? { return Some(R.Stop); }
          var pending := UpdateAction(a.commandId, ReconciliationRequired, None, now);
          next := if pending.Some? then Some(R.Stop) else None;
      }
    }

    /** The provider does not know the resource. */
    method ResourceGone(a: ActionCommand, now: int) returns (next: Option<R.Then>)
      requires execution.Valid()
      modifies execution.actions, execution.incidents
      ensures execution.Valid()
      ensures var e := R.ResourceGone(old(execution.World()), a, now); execution.World() == e.world && next == ValueOf(e)
    {
      var failed := UpdateAction(a.commandId, ActionState.Failed, None, now);
      if failed.None? || a.incidentId !in execution.incidents.items { return None; }
      TransitionToEscalated(a.incidentId, now);
      var ok := execution.WriteIncident(a.incidentId, None, Some(IncidentRepository.RecoveryRequired), None, now);
      next := if ok then Some(R.Stop) else None;
    }

    /** After `adapter.verify` answered. */
    method FinishReverify(a: ActionCommand, attempt: nat, v: E.VerifyAnswer, now: int, crash: R.Crash)
      returns (next: Option<R.Then>)
      requires execution.Valid()
      modifies execution`journal, execution.actions, execution.incidents, execution.ownership, execution.verification, execution.outbox
      ensures execution.Valid()
      ensures var e := R.FinishReverify(old(execution.World()), a, attempt, v, now, crash);
              execution.World() == e.world && next == ValueOf(e)
      ensures O.RecordsCheck(old(execution.World()), execution.World(), a, attempt, v, next, now, crash)
    {
      O.FinishReverifyRecords(execution.World(), a, attempt, v, now, crash,
                              R.FinishReverify(execution.World(), a, attempt, v, now, crash));
      var state := R.ReverificationOf(v);
      execution.SaveCheck(E.Reverify(a.commandId, attempt), a.incidentId, v, state, now);
      if crash.AfterReverify? { return None; }
      var ok := execution.WriteIncident(a.incidentId, Some(state), None, None, now);
      if !ok { return None; }
      next := Conclude(a, state, now);
    }

    /** What the recorded re-verification does to the command. */
    method Conclude(a: ActionCommand, state: VerificationState, now: int) returns (next: Option<R.Then>)
      requires execution.Valid() && a.incidentId in execution.incidents.items
      modifies execution.actions, execution.incidents, execution.ownership, execution.outbox
      ensures execution.Valid()
      ensures var e := R.Conclude(old(execution.World()), a, state, now); execution.World() == e.world && next == ValueOf(e)
    {
      if state.Improved? {
        var success := UpdateAction(a.commandId, Success, None, now);
        if success.None? { return None; }
        execution.MaybeResolve(success.value.incidentId, success.value.planVersion, now);
        next := Some(R.Stop);
      } else if state.Unchanged? || state.Degraded? {
        var doomed := UpdateAction(a.commandId, RollbackRequired, None, now);
        if doomed.None? { return None; }
        execution.outbox.Append(OutboxRepository.OutRollback(a.commandId),
                                OutboxRepository.NewRow(execution.incidents.items[a.incidentId].triggerEventId,
                                                        OutboxRepository.ActionExecutionReady, now));
        next := Some(R.Stop);
      } else {
        var current := if a.commandId in execution.actions.byId then execution.actions.byId[a.commandId] else a;
        if current.state.ReconciliationRequired? { return Some(R.Stop); }
        var pending := UpdateAction(a.commandId, ReconciliationRequired, None, now);
        next := if pending.Some? then Some(R.Stop) else None;
      }
    }
  }
}
