/** The durable decision of an incident (durable_reasoning.py, `handle_durable_incident_ready`), from the
    moment the reasoning has answered. */
module Decisions {
  import opened DurableCore
  import opened IncidentRepository
  import opened OutboxRepository
  import opened Execution

  /** What the reasoning context fixed before the model was asked, and the WARDEN verdict that came back;
      `dies` when the process ends once the plan is persisted. */
  datatype Verdict = Verdict(
    incidentId: Id, contextVersion: nat, contextState: IncidentState, decision: WardenDecision, commands: seq<ActionCommand>, dies: bool)

  function TargetOf(d: WardenDecision): IncidentState
    requires !d.Undecided?
  {
    match d case Allow => Approved case Block => Blocked case Escalate => Escalated
  }

  function OutcomeOf(d: WardenDecision): IncidentOutcome {
    match d case Allow => AuthorizedPlan case Block => PlanBlocked case _ => PlanEscalated
  }

  /** `_existing_completion(..) is not None`. */
  predicate AlreadyDecided(i: Incident) { !i.warden.Undecided? && i.state == TargetOf(i.warden) }

  /** Commands as the creation loop builds them for plan `plan`: READY, never attempted, under fresh identities. */
  predicate PlanCommands(s: ActionStore, cmds: seq<ActionCommand>, incident: Id, plan: int) {
    && (forall c <- cmds ::
        && c.commandId !in s.byId && c.incidentId == incident && c.planVersion == plan && IsPlanType(c.commandType)
        && c.state.Ready? && c.attemptCount == 0 && c.providerResourceId.None?)
    && (forall i, j :: 0 <= i < j < |cmds| ==> cmds[i].commandId != cmds[j].commandId)
  }

  /** The creation loop: one `create_or_get` for each planned action. */
  function CreateAll(s: ActionStore, cmds: seq<ActionCommand>): (r: ActionStore)
    requires s.Filed()
    ensures r.Filed()
  {
    if cmds == [] then s else CreateAll(s, cmds[..|cmds| - 1]).CreateOrGet(cmds[|cmds| - 1]).0
  }

  /** From the re-read of the incident to the decision row in the outbox. */
  function Decide(w: World, v: Verdict, now: int): Eff<()>
    requires w.actions.Filed() && !v.decision.Undecided?
  {
    if v.incidentId !in w.incidents.items then Raised(w)
    else
      var i := w.incidents.items[v.incidentId];
      if AlreadyDecided(i) then Ok(w, ())
      else if i.version != v.contextVersion || i.state != v.contextState then Raised(w)
      else
        var w1 := if v.decision.Allow? then w.(actions := CreateAll(w.actions, v.commands)) else w;
        if v.dies then Raised(w1) else Commit(w1, v, now)
  }

  /** The fields of the decision. */
  function WithDecision(s: IncidentStore, v: Verdict, plan: int, now: int): IncidentStore
    requires v.incidentId in s.items
  {
    var i := s.items[v.incidentId];
    var decided := i.(planVersion := plan, warden := v.decision, outcome := OutcomeOf(v.decision), updatedAt := now,
                      version := i.version + 1);
    s.(items := s.items[v.incidentId := decided])
  }

  /** The walk to the decided state, the fields of the decision, and its row. */
  function Commit(w: World, v: Verdict, now: int): Eff<()>
    requires !v.decision.Undecided? && v.incidentId in w.incidents.items
  {
    var i := w.incidents.items[v.incidentId];
    if !CanAdvance(i.state, TargetOf(v.decision)) then Raised(w)
    else
      AdvanceReaches(w.incidents, v.incidentId, TargetOf(v.decision), now);
      var store := w.incidents.Advanced(v.incidentId, TargetOf(v.decision), now);
      var w1 := w.(incidents := WithDecision(store, v, i.planVersion + 1, now));
      var row := NewRow(i.triggerEventId, DecisionReady, now);
      Ok(w1.(outbox := AppendRow(w1.outbox, OutDecision(v.incidentId, i.planVersion + 1), row)), ())
  }

  lemma CommitIs(w: World, v: Verdict, now: int, store: IncidentStore)
    requires !v.decision.Undecided? && v.incidentId in w.incidents.items
             && CanAdvance(w.incidents.items[v.incidentId].state, TargetOf(v.decision))
    requires store == w.incidents.Advanced(v.incidentId, TargetOf(v.decision), now) && v.incidentId in store.items
    ensures var i := w.incidents.items[v.incidentId];
            Commit(w, v, now) ==
            Ok(w.(incidents := WithDecision(store, v, i.planVersion + 1, now),
                  outbox := AppendRow(w.outbox, OutDecision(v.incidentId, i.planVersion + 1), NewRow(i.triggerEventId, DecisionReady, now))), ())
  {}

  // ---------------------------------------------------------------- delivered again

  lemma {:induction false} CreateAllKnows(s: ActionStore, cmds: seq<ActionCommand>, k: IdempotencyKey)
    requires s.Filed()
    ensures k in CreateAll(s, cmds).byKey <==> k in s.byKey || exists c <- cmds :: c.Key() == k
  {
    if cmds != [] {
      var n := |cmds| - 1;
      CreateAllKnows(s, cmds[..n], k);
      assert cmds == cmds[..n] + [cmds[n]];
    }
  }

  /** The creation loop changes nothing exactly when every planned command is known. */
  lemma {:induction false} CreateAllUnchanged(s: ActionStore, cmds: seq<ActionCommand>)
    requires s.Filed()
    ensures CreateAll(s, cmds) == s <==> forall c <- cmds :: c.Key() in s.byKey
  {
    forall c | c in cmds && c.Key() !in s.byKey
      ensures CreateAll(s, cmds) != s
    {
      CreateAllKnows(s, cmds, c.Key());
    }
    if cmds != [] && forall c <- cmds :: c.Key() in s.byKey {
      CreateAllUnchanged(s, cmds[..|cmds| - 1]);
    }
  }

  /** The context that was reasoned about is no longer the stored one. */
  predicate Stale(i: Incident, v: Verdict) { i.version != v.contextVersion || i.state != v.contextState }

  /** The decision on the incident was made, and the incident stands where it led. */
  predicate Concluded(i: Incident) {
    (i.warden == Allow && i.state == Approved) || (i.warden == Block && i.state == Blocked) || (i.warden == Escalate && i.state == Escalated)
  }

  /** The incident is on the way to a decision, or where this one leads. */
  predicate StillToDecide(s: IncidentState, d: WardenDecision) {
    || s == Detected || s == Evaluating || s == Planned || s == WardenReview
    || (d == Allow && s == Approved) || (d == Block && s == Blocked) || (d == Escalate && s == Escalated)
  }

  /** When a delivery of a decision changes nothing: the incident is unknown or decided already, or its context is
      stale, or it plans nothing new and stops before the incident is touched. */
  predicate ChangesNothing(w: World, v: Verdict) {
    v.incidentId !in w.incidents.items ||
    var i := w.incidents.items[v.incidentId];
    || Concluded(i)
    || i.version != v.contextVersion || i.state != v.contextState
    || (&& (v.decision == Allow ==> forall c <- v.commands :: c.Key() in w.actions.byKey)
        && (v.dies || !StillToDecide(i.state, v.decision)))
  }

  lemma ConcludedExactly(i: Incident, d: WardenDecision)
    requires !d.Undecided?
    ensures AlreadyDecided(i) <==> Concluded(i)
    ensures CanAdvance(i.state, TargetOf(d)) <==> StillToDecide(i.state, d)
  {}

  lemma CommitMoves(w: World, v: Verdict, now: int)
    requires !v.decision.Undecided? && v.incidentId in w.incidents.items
    ensures CanAdvance(w.incidents.items[v.incidentId].state, TargetOf(v.decision)) ==>
              v.incidentId in Commit(w, v, now).world.incidents.items
              && w.incidents.items[v.incidentId].version < Commit(w, v, now).world.incidents.items[v.incidentId].version
    ensures !CanAdvance(w.incidents.items[v.incidentId].state, TargetOf(v.decision)) ==> Commit(w, v, now) == Raised(w)
  {
    if CanAdvance(w.incidents.items[v.incidentId].state, TargetOf(v.decision)) {
      AdvanceReaches(w.incidents, v.incidentId, TargetOf(v.decision), now);
    }
  }

  /** The part of a delivery that a current, undecided context reaches. */
  lemma FreshDelivery(w: World, v: Verdict, now: int)
    requires w.actions.Filed() && !v.decision.Undecided? && v.incidentId in w.incidents.items
    requires !AlreadyDecided(w.incidents.items[v.incidentId]) && !Stale(w.incidents.items[v.incidentId], v)
    ensures var w1 := if v.decision.Allow? then w.(actions := CreateAll(w.actions, v.commands)) else w;
            Decide(w, v, now) == if v.dies then Raised(w1) else Commit(w1, v, now)
  {}

  lemma Differs(w: World, v: World, id: Id)
    requires id in w.incidents.items && id in v.incidents.items && w.incidents.items[id].version != v.incidents.items[id].version
    ensures v != w
  {}

  /** In any world, however late and with whatever verdict. */
  lemma DeliveryChangesNothingExactly(w: World, v: Verdict, now: int)
    requires w.actions.Filed() && !v.decision.Undecided?
    ensures Decide(w, v, now).world == w <==> ChangesNothing(w, v)
  {
    if v.incidentId in w.incidents.items { ConcludedExactly(w.incidents.items[v.incidentId], v.decision); }
    if v.incidentId in w.incidents.items && !AlreadyDecided(w.incidents.items[v.incidentId])
        && !Stale(w.incidents.items[v.incidentId], v) {
      var w1 := if v.decision.Allow? then w.(actions := CreateAll(w.actions, v.commands)) else w;
      CreateAllUnchanged(w.actions, v.commands);
      FreshDelivery(w, v, now);
      CommitMoves(w1, v, now);
      if !v.dies && CanAdvance(w.incidents.items[v.incidentId].state, TargetOf(v.decision)) {
        Differs(w, Commit(w1, v, now).world, v.incidentId);
      }
    }
  }

  /** A decision that took effect, delivered again before anything moved its incident, changes nothing. */
  lemma DecideOnce(w: World, v: Verdict, now: int, u: World, again: Verdict, later: int)
    requires w.actions.Filed() && !v.decision.Undecided? && !again.decision.Undecided?
    requires Decide(w, v, now).Ok? && again.incidentId == v.incidentId && u.actions.Filed()
    requires v.incidentId in u.incidents.items
    requires u.incidents.items[v.incidentId].state == Decide(w, v, now).world.incidents.items[v.incidentId].state
    requires u.incidents.items[v.incidentId].warden == Decide(w, v, now).world.incidents.items[v.incidentId].warden
    ensures Decide(u, again, later) == Ok(u, ())
  {
    var i := w.incidents.items[v.incidentId];
    if !AlreadyDecided(i) { AdvanceReaches(w.incidents, v.incidentId, TargetOf(v.decision), now); }
  }

  /** Once the incident has moved on, an authorisation that was reasoned afresh still stores its commands, under a
      plan that the incident never takes up, and then raises. */
  lemma LateDeliveryCreates(w: World, v: Verdict, now: int)
    requires w.actions.Filed() && v.decision.Allow? && !v.dies && v.incidentId in w.incidents.items
    requires var i := w.incidents.items[v.incidentId];
             !AlreadyDecided(i) && !Stale(i, v) && !CanAdvance(i.state, Approved)
    ensures Decide(w, v, now) == Raised(w.(actions := CreateAll(w.actions, v.commands)))
    ensures (exists c <- v.commands :: c.Key() !in w.actions.byKey) ==> Decide(w, v, now).world != w
  {
    DeliveryChangesNothingExactly(w, v, now);
  }
}
