/** What one segment of the reconciler keeps: every command and incident only moves on, and only the command that it
    reconciles is written. */
module ReconcilerContinuity {
  import opened Options
  import opened DurableCore
  import opened IncidentRepository
  import opened Execution
  import opened Reconciliation
  import opened HandlerContinuity

  /** The records of the other commands. */
  ghost predicate SameElsewhere(w: World, v: World, x: Id) {
    && (forall id <- w.actions.byId :: id != x ==> id in v.actions.byId && v.actions.byId[id] == w.actions.byId[id])
    && (forall id: Id :: id != x ==> RowsOf(v, id) == RowsOf(w, id))
    && (forall c: CheckId :: c.commandId != x ==> (c in v.checks <==> c in w.checks) && (c in w.checks ==> v.checks[c] == w.checks[c]))
  }

  /** The provider is told nothing. */
  ghost predicate Touches(w: World, v: World, x: Id) {
    Anchored(w, v) && SameElsewhere(w, v, x) && v.journal.calls == w.journal.calls
  }

  lemma TouchesTrans(u: World, v: World, w: World, x: Id)
    requires Touches(u, v, x) && Touches(v, w, x)
    ensures Touches(u, w, x)
  {
    AnchoredTrans(u, v, w);
  }

  lemma AsideTouches(w: World, v: World, x: Id)
    requires v.actions == w.actions && v.incidents == w.incidents && v.attempts == w.attempts && v.checks == w.checks
             && v.journal == w.journal
    ensures Touches(w, v, x)
  {}

  /** What the executor's writes of incidents keep. */
  lemma ContinuesTouches(w: World, v: World, x: Id)
    requires Continues(w, v) && v.actions == w.actions && v.checks == w.checks && v.journal == w.journal
    ensures Touches(w, v, x)
  {}

  lemma RewriteTouches(w: World, id: Id, state: ActionState, rid: Option<Id>, now: int)
    requires w.actions.Filed()
    ensures var r := Rewrite(w, id, state, rid, now);
            Touches(w, r.world, id) && r.world.incidents == w.incidents && (r.Ok? ==> r.value.commandId == id)
  {}

  lemma SaveAttemptTouches(w: World, a: ActionCommand, attempt: nat, outcome: ReadOutcome, terminal: bool, now: int)
    ensures Touches(w, SaveAttempt(w, a, attempt, outcome, terminal, now), a.commandId)
  {}

  lemma SaveReverifyTouches(w: World, id: Id, attempt: nat, incident: Id, v: VerifyAnswer, state: VerificationState,
                            now: int)
    ensures Touches(w, SaveCheck(w, Reverify(id, attempt), incident, v, state, now), id)
  {}

  lemma MoveTouches(w: World, x: Id, incident: Id, from: IncidentState, to: IncidentState, now: int)
    requires CanMove(from, to)
    ensures Touches(w, MoveIncidentFrom(w, incident, from, to, now), x)
  {
    MoveContinues(w, incident, from, to, now);
    ContinuesTouches(w, MoveIncidentFrom(w, incident, from, to, now), x);
  }

  lemma WriteTouches(w: World, x: Id, incident: Id, v: Option<VerificationState>, o: Option<IncidentOutcome>, now: int)
    ensures Touches(w, WriteIncident(w, incident, v, o, None, now).world, x)
  {
    WriteContinues(w, incident, v, o, None, now);
    ContinuesTouches(w, WriteIncident(w, incident, v, o, None, now).world, x);
  }

  lemma EscalateTouches(w: World, x: Id, incident: Id, now: int)
    ensures Touches(w, EscalateIncident(w, incident, now), x)
  {
    var w1 := MoveIncidentFrom(w, incident, Approved, Mitigating, now);
    var w2 := MoveIncidentFrom(w1, incident, Mitigating, Verifying, now);
    MoveTouches(w, x, incident, Approved, Mitigating, now);
    MoveTouches(w1, x, incident, Mitigating, Verifying, now);
    MoveTouches(w2, x, incident, Verifying, IncidentState.Escalated, now);
    TouchesTrans(w, w1, w2, x);
    TouchesTrans(w, w2, EscalateIncident(w, incident, now), x);
  }

  /** An escalation, then the fields that record why. */
  lemma EscalateAndWriteTouches(w: World, x: Id, incident: Id, v: Option<VerificationState>, o: IncidentOutcome,
                                now: int)
    ensures Touches(w, WriteIncident(EscalateIncident(w, incident, now), incident, v, Some(o), None, now).world, x)
  {
    var w1 := EscalateIncident(w, incident, now);
    EscalateTouches(w, x, incident, now);
    WriteTouches(w1, x, incident, v, Some(o), now);
    TouchesTrans(w, w1, WriteIncident(w1, incident, v, Some(o), None, now).world, x);
  }

  lemma HandOverTouches(w: World, x: Id, incident: Id, now: int)
    ensures Touches(w, HandOver(w, incident, now).world, x)
  {
    EscalateAndWriteTouches(w, x, incident, Some(InsufficientEvidence), ManualReconciliationRequired, now);
  }

  lemma SaveTerminalTouches(w: World, a: ActionCommand, count: nat, now: int)
    ensures Touches(w, SaveTerminalEscalation(w, a, count, now).world, a.commandId)
  {
    if (exists r <- RowsOf(w, a.commandId) :: r.terminal) || a.incidentId !in w.incidents.items {
      AsideTouches(w, w, a.commandId);
    } else {
      var w1 := SaveAttempt(w, a, count, ManualRequired, true, now);
      SaveAttemptTouches(w, a, count, ManualRequired, true, now);
      HandOverTouches(w1, a.commandId, a.incidentId, now);
      TouchesTrans(w, w1, HandOver(w1, a.incidentId, now).world, a.commandId);
    }
  }

  lemma ResourceGoneTouches(w: World, a: ActionCommand, now: int)
    requires w.actions.Filed()
    ensures Touches(w, ResourceGone(w, a, now).world, a.commandId)
  {
    var r := Rewrite(w, a.commandId, ActionState.Failed, None, now);
    RewriteTouches(w, a.commandId, ActionState.Failed, None, now);
    if r.Ok? && a.incidentId in r.world.incidents.items {
      EscalateAndWriteTouches(r.world, a.commandId, a.incidentId, None, RecoveryRequired, now);
      TouchesTrans(w, r.world, ResourceGone(w, a, now).world, a.commandId);
    }
  }

  lemma ResourceGoneStops(w: World, a: ActionCommand, now: int)
    ensures ResourceGone(w, a, now).Ok? ==> ResourceGone(w, a, now).value.Stop?
  {}

  lemma AvailableTouches(w: World, a: ActionCommand, current: ActionCommand, attempt: nat, answer: ReadAnswer, now: int)
    requires w.actions.Filed() && answer.Resource? && current.commandId == a.commandId
    ensures var r := Follow(w, a, current, attempt, ProviderAvailable, answer, now);
            Touches(w, r.world, a.commandId) && (r.Ok? ==> r.value.AwaitReverify? && r.value.action.commandId == a.commandId)
  {
    AsideTouches(w, w, a.commandId);
    RewriteTouches(w, a.commandId, Acknowledged, answer.resource.Or(current.providerResourceId), now);
  }

  lemma FollowTouches(w: World, a: ActionCommand, current: ActionCommand, attempt: nat, outcome: ReadOutcome,
                      answer: ReadAnswer, now: int)
    requires w.actions.Filed() && (outcome.ProviderAvailable? ==> answer.Resource?) && current.commandId == a.commandId
    ensures var r := Follow(w, a, current, attempt, outcome, answer, now);
            Touches(w, r.world, a.commandId) && (r.Ok? && r.value.AwaitReverify? ==> r.value.action.commandId == a.commandId)
            && (r.Ok? ==> !r.value.AwaitRead?)
  {
    if outcome.ProviderAvailable? {
      AvailableTouches(w, a, current, attempt, answer, now);
    } else if outcome.ProviderNotFound? {
      ResourceGoneTouches(w, a, now);
      ResourceGoneStops(w, a, now);
    } else {
      AsideTouches(w, w, a.commandId);
      RewriteTouches(w, a.commandId, ReconciliationRequired, None, now);
    }
  }

  lemma FinishReadTouches(w: World, a: ActionCommand, attempt: nat, answer: ReadAnswer, now: int, crash: Crash)
    requires w.actions.Filed()
    ensures var r := FinishRead(w, a, attempt, answer, now, crash);
            Touches(w, r.world, a.commandId) && (r.Ok? && r.value.AwaitReverify? ==> r.value.action.commandId == a.commandId)
            && (r.Ok? ==> !r.value.AwaitRead?)
  {
    AsideTouches(w, w, a.commandId);
    var w1 := SaveAttempt(w, a, attempt, Classify(a, answer), false, now);
    SaveAttemptTouches(w, a, attempt, Classify(a, answer), false, now);
    if !crash.BeforePersist? && !crash.AfterPersist? {
      FollowTouches(w1, a, if a.commandId in w1.actions.byId then w1.actions.byId[a.commandId] else a, attempt, Classify(a, answer), answer, now);
      TouchesTrans(w, w1, FinishRead(w, a, attempt, answer, now, crash).world, a.commandId);
    }
  }

  lemma MaybeResolveTouches(w: World, x: Id, incident: Id, plan: int, now: int)
    ensures Touches(w, MaybeResolve(w, incident, plan, now), x)
  {
    MaybeResolveContinues(w, incident, plan, now);
    ContinuesTouches(w, MaybeResolve(w, incident, plan, now), x);
  }

  lemma ConcludeTouches(w: World, a: ActionCommand, state: VerificationState, now: int)
    requires w.actions.Filed() && a.incidentId in w.incidents.items
    ensures Touches(w, Conclude(w, a, state, now).world, a.commandId)
  {
    var id := a.commandId;
    AsideTouches(w, w, id);
    if state.Improved? {
      var r := Rewrite(w, id, Success, None, now);
      RewriteTouches(w, id, Success, None, now);
      if r.Ok? {
        MaybeResolveTouches(r.world, id, r.value.incidentId, r.value.planVersion, now);
        TouchesTrans(w, r.world, MaybeResolve(r.world, r.value.incidentId, r.value.planVersion, now), id);
      }
    } else if state.Unchanged? || state.Degraded? {
      var r := Rewrite(w, id, RollbackRequired, None, now);
      RewriteTouches(w, id, RollbackRequired, None, now);
      AsideTouches(r.world, Conclude(w, a, state, now).world, id);
      TouchesTrans(w, r.world, Conclude(w, a, state, now).world, id);
    } else {
      RewriteTouches(w, id, ReconciliationRequired, None, now);
    }
  }

  lemma FinishReverifyTouches(w: World, a: ActionCommand, attempt: nat, v: VerifyAnswer, now: int, crash: Crash)
    requires w.actions.Filed()
    ensures Touches(w, FinishReverify(w, a, attempt, v, now, crash).world, a.commandId)
  {
    var state := ReverificationOf(v);
    var w1 := SaveCheck(w, Reverify(a.commandId, attempt), a.incidentId, v, state, now);
    SaveReverifyTouches(w, a.commandId, attempt, a.incidentId, v, state, now);
    var w2 := WriteIncident(w1, a.incidentId, Some(state), None, None, now);
    WriteTouches(w1, a.commandId, a.incidentId, Some(state), None, now);
    TouchesTrans(w, w1, w2.world, a.commandId);
    if w2.Ok? && !crash.AfterReverify? {
      ConcludeTouches(w2.world, a, state, now);
      TouchesTrans(w, w2.world, Conclude(w2.world, a, state, now).world, a.commandId);
    }
  }

  /** The command that a suspended reconciler waits for. */
  predicate Concerns(next: Then, id: Id) { next.Stop? || next.action.commandId == id }

  lemma ReverifyingTouches(w: World, a: ActionCommand, count: nat, s: Settings, now: int, crash: Crash)
    requires w.actions.Filed()
    ensures var r := Reverifying(w, a, count, s, now, crash);
            Touches(w, r.world, a.commandId) && (r.Ok? ==> Concerns(r.value, a.commandId))
  {
    var again := Unproven(w, a.commandId, count);
    var attempt := if again then count + 1 else count;
    var w1 := if again then SaveAttempt(w, a, attempt, ProviderAvailable, false, now) else w;
    AsideTouches(w, w, a.commandId);
    SaveAttemptTouches(w, a, attempt, ProviderAvailable, false, now);
    if !CanRead(a, s) {
      FinishReverifyTouches(w1, a, attempt, Unavailable, now, crash);
      ReverifyStops(w1, a, attempt, now, crash);
      TouchesTrans(w, w1, FinishReverify(w1, a, attempt, Unavailable, now, crash).world, a.commandId);
    }
  }

  lemma ReverifyStops(w: World, a: ActionCommand, attempt: nat, now: int, crash: Crash)
    ensures var r := FinishReverify(w, a, attempt, Unavailable, now, crash); r.Ok? ==> r.value.Stop?
  {}

  lemma BeginReverifyTouches(w: World, a: ActionCommand, count: nat, s: Settings, now: int, crash: Crash)
    requires w.actions.Filed()
    ensures var r := BeginReverify(w, a, count, s, now, crash);
            Touches(w, r.world, a.commandId) && (r.Ok? ==> Concerns(r.value, a.commandId))
  {
    if Uncertain(a.state) {
      var r := Rewrite(w, a.commandId, Acknowledged, None, now);
      RewriteTouches(w, a.commandId, Acknowledged, None, now);
      if r.Ok? {
        ReverifyingTouches(r.world, r.value, count, s, now, crash);
        TouchesTrans(w, r.world, Reverifying(r.world, r.value, count, s, now, crash).world, a.commandId);
      }
    } else {
      ReverifyingTouches(w, a, count, s, now, crash);
    }
  }

  lemma ActTouches(w: World, a: ActionCommand, status: Status, count: nat, s: Settings, now: int, crash: Crash)
    requires w.actions.Filed()
    ensures var r := Act(w, a, status, count, s, now, crash);
            Touches(w, r.world, a.commandId) && (r.Ok? ==> Concerns(r.value, a.commandId))
  {
    AsideTouches(w, w, a.commandId);
    match status
    case DeadlineReached => SaveTerminalTouches(w, a, count, now);
    case ReadyForReverification => BeginReverifyTouches(w, a, count, s, now, crash);
    case Due => FinishReadTouches(w, a, count + 1, NoAnswer, now, if crash.BeforePersist? then NoCrash else crash);
    case _ =>
  }

  lemma BeginTouches(w: World, id: Id, s: Settings, rs: Retry, now: int, crash: Crash)
    requires w.actions.Filed()
    ensures var r := Begin(w, id, s, rs, now, crash); Touches(w, r.world, id) && (r.Ok? ==> Concerns(r.value, id))
  {
    AsideTouches(w, w, id);
    if id in w.actions.byId {
      var a := w.actions.byId[id];
      ActTouches(w, a, WorkStatus(w, a, rs, now), Count(Attempts(w, a.commandId)), s, now, crash);
    }
  }
}
