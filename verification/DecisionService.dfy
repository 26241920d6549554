/** The decision handler in the form of its source: a loop that creates the commands, the walk of the
    incident, and the row of the outbox (durable_reasoning.py). */
module DecisionService {
  import opened DurableCore
  import IR = IncidentRepository
  import OutboxRepository
  import D = Decisions
  import O = ReconciliationOutcomes
  import opened ExecutionService

  class DurableReasoningService {
    const execution: DurableActionExecutionService

    constructor (execution: DurableActionExecutionService)
      ensures this.execution == execution
    {
      this.execution := execution;
    }

    /** One `create_or_get` for each planned action. */
    method CreateCommands(cmds: seq<ActionCommand>)
      requires execution.Valid()
      modifies execution.actions
      ensures execution.Valid()
      ensures execution.World() == old(execution.World()).(actions := D.CreateAll(old(execution.World()).actions, cmds))
    {
      for i := 0 to |cmds|
        invariant execution.Valid()
        invariant execution.World() == old(execution.World()).(actions := D.CreateAll(old(execution.World()).actions, cmds[..i]))
      {
        assert cmds[..i + 1][..i] == cmds[..i];
        var stored, created := execution.actions.CreateOrGet(cmds[i]);
      }
      assert cmds[..|cmds|] == cmds;
    }

    /** `handle_durable_incident_ready`, from the re-read of the incident on. */
    method HandleDurableIncidentReady(v: D.Verdict, now: int) returns (ok: bool)
      requires execution.Valid() && !v.decision.Undecided?
      modifies execution.actions, execution.incidents, execution.outbox
      ensures execution.Valid()
      ensures var e := D.Decide(old(execution.World()), v, now); execution.World() == e.world && ok == e.Ok?
      ensures O.DecidesOn(old(execution.World()), execution.World(), v, ok)
    {
      O.DecideDecides(execution.World(), v, now);
      if v.incidentId !in execution.incidents.items { return false; }
      var i := execution.incidents.items[v.incidentId];
      if D.AlreadyDecided(i) { return true; }
      if i.version != v.contextVersion || i.state != v.contextState { return false; }
      if v.decision.Allow? { CreateCommands(v.commands); }
      if v.dies { return false; }
      ok := Commit(v, now);
    }

    /** The walk to the decided state, the fields of the decision, and its row. */
    method Commit(v: D.Verdict, now: int) returns (ok: bool)
      requires execution.Valid() && !v.decision.Undecided? && v.incidentId in execution.incidents.items
      modifies execution.incidents, execution.outbox
      ensures execution.Valid()
      ensures var e := D.Commit(old(execution.World()), v, now); execution.World() == e.world && ok == e.Ok?
    {
      var i := execution.incidents.items[v.incidentId];
      ghost var was := execution.World();
      ok := Advance(v.incidentId, D.TargetOf(v.decision), now);
      if !ok {
        assert execution.World() == was;
        return false;
      }
      D.CommitIs(was, v, now, execution.incidents.Store());
      Decided(v, i.planVersion + 1, i.triggerEventId, now);
    }

    /** What follows the walk. */
    method Decided(v: D.Verdict, plan: int, event: Id, now: int)
      requires execution.Valid() && !v.decision.Undecided? && v.incidentId in execution.incidents.items
      modifies execution.incidents, execution.outbox
      ensures execution.Valid()
      ensures execution.World() == old(execution.World()).(
                incidents := D.WithDecision(old(execution.incidents.Store()), v, plan, now),
                outbox := OutboxRepository.AppendRow(old(execution.World()).outbox, OutboxRepository.OutDecision(v.incidentId, plan),
                                                     OutboxRepository.NewRow(event, OutboxRepository.DecisionReady, now)))
    {
      RecordDecision(v, plan, now);
      DecisionOutbox(v.incidentId, plan, event, now);
    }

    /** `_decision_outbox`. */
    method DecisionOutbox(incident: Id, plan: int, event: Id, now: int)
      requires execution.Valid()
      modifies execution.outbox
      ensures execution.Valid()
      ensures execution.World() == old(execution.World()).(outbox :=
                OutboxRepository.AppendRow(old(execution.World()).outbox, OutboxRepository.OutDecision(incident, plan),
                                           OutboxRepository.NewRow(event, OutboxRepository.DecisionReady, now)))
    {
      execution.outbox.Append(OutboxRepository.OutDecision(incident, plan),
                              OutboxRepository.NewRow(event, OutboxRepository.DecisionReady, now));
    }

    /** The fields of the decision. */
    method RecordDecision(v: D.Verdict, plan: int, now: int)
      requires execution.Valid() && !v.decision.Undecided? && v.incidentId in execution.incidents.items
      modifies execution.incidents
      ensures execution.Valid()
      ensures execution.World() == old(execution.World()).(incidents := D.WithDecision(old(execution.incidents.Store()), v, plan, now))
    {
      var moved := execution.incidents.items[v.incidentId];
      assert moved.incidentId == v.incidentId;
      execution.UpdateIncident(moved.(planVersion := plan, warden := v.decision, outcome := D.OutcomeOf(v.decision), updatedAt := now));
    }

    /** `_advance`. */
    method Advance(id: Id, target: IncidentState, now: int) returns (reached: bool)
      requires execution.Valid() && id in execution.incidents.items && IR.IsDecisionTarget(target)
      modifies execution.incidents
      ensures execution.Valid() && id in execution.incidents.items
      ensures reached <==> IR.CanAdvance(old(execution.incidents.items[id]).state, target)
      ensures execution.World() == old(execution.World()).(incidents :=
                if reached then old(execution.incidents.Store().Advanced(id, target, now)) else old(execution.incidents.Store()))
      ensures reached ==> execution.incidents.items[id].state == target
    {
      ghost var was := execution.incidents.Store();
      reached := execution.incidents.Advance(id, target, now);
      if reached {
        IR.AdvanceReaches(was, id, target, now);
        IR.AdvanceNames(was, id, target, now);
        IR.AdvanceLogs(was, id, target, now);
      }
    }
  }
}
