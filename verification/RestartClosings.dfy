/** Every way in which a run can close an incident, and when the restart after it is refused.  Five kinds of step close
    incidents: a block on the way to the provider, a proven mitigation, a verified rollback, a BLOCK decision and an
    operator.  Each finishes commands and gains nothing for other incidents, so the restart depends on what is left of
    the closed one; and an incident that was closed cleanly can still be spoiled by the late rollback of a command. */
module RestartClosings {
  import opened Options
  import opened DurableCore
  import opened IncidentRepository
  import OutboxRepository
  import RecoveryConsistency
  import opened Execution
  import opened Reconciliation
  import opened Decisions
  import opened PlatformLifecycle
  import Runs = ExecutionRuns

  predicate Closing(w: World, v: World, x: Id) { Active(w, x) && !Active(v, x) }

  /** No incident is closed on the way. */
  ghost predicate KeepsOpen(w: World, v: World) { forall x :: Active(w, x) ==> Active(v, x) }

  // ---------------------------------------------------------------- writes that close nothing

  lemma OpenTrans(u: World, v: World, w: World)
    requires KeepsOpen(u, v) && KeepsOpen(v, w)
    ensures KeepsOpen(u, w)
  {}

  lemma SameIncidentsOpen(w: World, v: World)
    requires v.incidents == w.incidents
    ensures KeepsOpen(w, v)
  {}

  lemma MoveOpens(w: World, id: Id, from: IncidentState, to: IncidentState, now: int)
    requires CanMove(from, to) && !Closed(to)
    ensures KeepsOpen(w, MoveIncidentFrom(w, id, from, to, now))
  {}

  lemma WriteOpens(w: World, id: Id, v: Option<VerificationState>, o: Option<IncidentOutcome>, r: Option<RecoveryState>,
                   now: int)
    ensures KeepsOpen(w, WriteIncident(w, id, v, o, r, now).world)
  {}

  lemma SaveRecoveryOpens(w: World, id: Id, state: RecoveryState, now: int)
    ensures KeepsOpen(w, SaveRecovery(w, id, state, now).world)
  {}

  /** A move of the incident, then a row in the outbox. */
  lemma MoveAndReportOpens(w: World, id: Id, from: IncidentState, to: IncidentState, a: ActionCommand,
                           status: OutboxRepository.ExecutionStatus, now: int)
    requires CanMove(from, to) && !Closed(to)
    ensures KeepsOpen(w, AppendOutbox(MoveIncidentFrom(w, id, from, to, now), a, status, now).world)
  {
    var v := MoveIncidentFrom(w, id, from, to, now);
    MoveOpens(w, id, from, to, now);
    SameIncidentsOpen(v, AppendOutbox(v, a, status, now).world);
    OpenTrans(w, v, AppendOutbox(v, a, status, now).world);
  }

  lemma SettleSame(w: World, a: ActionCommand, state: ActionState, status: OutboxRepository.ExecutionStatus, now: int)
    ensures Settle(w, a, state, status, now).world.incidents == w.incidents
  {}

  lemma BeginVerifyOpens(w: World, u: World, a: ActionCommand, now: int)
    requires u.incidents == w.incidents
    ensures KeepsOpen(w, BeginVerify(u, a, now).world)
  {
    MoveOpens(u, a.incidentId, Mitigating, Verifying, now);
  }

  lemma AcceptedOpens(w: World, a: ActionCommand, rid: Option<Id>, now: int)
    ensures var r := UpdateAction(w, a, Acknowledged, rid, now); r.Ok? ==> KeepsOpen(w, BeginVerify(r.world, r.value, now).world)
  {
    var r := UpdateAction(w, a, Acknowledged, rid, now);
    if r.Ok? { BeginVerifyOpens(w, r.world, r.value, now); }
  }

  lemma AfterExecuteOpens(w: World, sent: ActionCommand, answer: ProviderAnswer, now: int, fail: Option<Failpoint>)
    ensures KeepsOpen(w, AfterExecute(w, sent, answer, now, fail).world)
  {
    var v := AfterExecute(w, sent, answer, now, fail).world;
    if answer.Ambiguous? || fail == Some(AfterProviderBeforeResult) {
      SettleSame(w, sent, OutcomeUnknown, OutboxRepository.OutcomeUnknownRow, now);
      SameIncidentsOpen(w, v);
    } else if answer.Rejected? {
      SameIncidentsOpen(w, v);
    } else {
      AcceptedOpens(w, sent, answer.resource, now);
      if v.incidents == w.incidents { SameIncidentsOpen(w, v); }
    }
  }

  lemma AfterReconcileOpens(w: World, a: ActionCommand, answer: ReconcileAnswer, now: int)
    ensures KeepsOpen(w, AfterReconcile(w, a, answer, now).world)
  {
    var v := AfterReconcile(w, a, answer, now).world;
    match answer
    case Present(resource) =>
      AcceptedOpens(w, a, resource.Or(a.providerResourceId), now);
      if v.incidents == w.incidents { SameIncidentsOpen(w, v); }
    case Absent =>
      SettleSame(w, a, ActionState.Failed, OutboxRepository.ProviderFailedRow, now);
      SameIncidentsOpen(w, v);
    case Unknown =>
      UnknownSame(w, a, now);
      SameIncidentsOpen(w, v);
  }

  lemma UnknownSame(w: World, a: ActionCommand, now: int)
    ensures AfterReconcile(w, a, Unknown, now).world.incidents == w.incidents
  {}

  // ---------------------------------------------------------------- the rollback

  lemma RefuseRollbackOpens(w: World, a: ActionCommand, now: int)
    ensures KeepsOpen(w, RefuseRollback(w, a, now).world)
  {
    var r := SaveRecovery(w, a.incidentId, RecoveryState.Failed, now);
    SaveRecoveryOpens(w, a.incidentId, RecoveryState.Failed, now);
    if r.Ok? {
      MoveAndReportOpens(r.world, a.incidentId, Verifying, IncidentState.Escalated, a, OutboxRepository.RecoveryRequiredRow, now);
      OpenTrans(w, r.world, RefuseRollback(w, a, now).world);
    }
  }

  lemma ClaimedRollbackSaves(w: World, a: ActionCommand, sent: ActionCommand, now: int, fail: Option<Failpoint>)
    ensures ClaimedRollback(w, a, sent, now, fail).world.incidents == SaveRecovery(w, a.incidentId, Releasing, now).world.incidents
  {
    SettleSame(SaveRecovery(w, a.incidentId, Releasing, now).world, sent, OutcomeUnknown, OutboxRepository.OutcomeUnknownRow, now);
  }

  lemma UndertakeOpens(w: World, a: ActionCommand, r: ActionCommand, now: int, fail: Option<Failpoint>)
    ensures KeepsOpen(w, Undertake(w, a, r, now, fail).world)
  {
    var v := Undertake(w, a, r, now, fail).world;
    var u := UpdateAction(w, r, ActionState.Sent, None, now);
    if r.state.Ready? && u.Ok? {
      ClaimedRollbackSaves(u.world, a, u.value, now, fail);
      SaveRecoveryOpens(u.world, a.incidentId, Releasing, now);
      SameIncidentsOpen(SaveRecovery(u.world, a.incidentId, Releasing, now).world, v);
      OpenTrans(u.world, SaveRecovery(u.world, a.incidentId, Releasing, now).world, v);
      SameIncidentsOpen(w, u.world);
      OpenTrans(w, u.world, v);
    } else {
      SameIncidentsOpen(w, v);
    }
  }

  lemma BeginRollbackOpens(w: World, a: ActionCommand, s: Settings, cap: Capability, freshId: Id, now: int,
                           fail: Option<Failpoint>)
    requires w.actions.Filed()
    ensures KeepsOpen(w, BeginRollback(w, a, s, cap, freshId, now, fail).world)
  {
    var v := BeginRollback(w, a, s, cap, freshId, now, fail).world;
    if !ModeAllows(s) || v == w {
      SameIncidentsOpen(w, v);
    } else if !cap.rollback || a.providerResourceId.None? {
      RefuseRollbackOpens(w, a, now);
    } else {
      var (store, r) := w.actions.CreateOrGet(RollbackCommand(a, freshId, now));
      UndertakeOpens(w.(actions := store), a, r, now, fail);
      SameIncidentsOpen(w, w.(actions := store));
      OpenTrans(w, w.(actions := store), v);
    }
  }

  lemma RecoveryAndReportOpens(w: World, incident: Id, state: RecoveryState, a: ActionCommand,
                               status: OutboxRepository.ExecutionStatus, now: int)
    ensures var r := SaveRecovery(w, incident, state, now); r.Ok? ==> KeepsOpen(w, AppendOutbox(r.world, a, status, now).world)
    ensures KeepsOpen(w, SaveRecovery(w, incident, state, now).world)
  {
    var r := SaveRecovery(w, incident, state, now);
    SaveRecoveryOpens(w, incident, state, now);
    SameIncidentsOpen(r.world, AppendOutbox(r.world, a, status, now).world);
    OpenTrans(w, r.world, AppendOutbox(r.world, a, status, now).world);
  }

  lemma UnknownRollbackOpens(w: World, a: ActionCommand, sent: ActionCommand, answer: ProviderAnswer, explicit: bool,
                             now: int, fail: Option<Failpoint>)
    requires answer.Ambiguous? || fail == Some(AfterRollbackProviderBeforeResult)
    ensures KeepsOpen(w, AfterRollback(w, a, sent, answer, explicit, now, fail).world)
  {
    var v := AfterRollback(w, a, sent, answer, explicit, now, fail).world;
    var u := UpdateAction(w, sent, OutcomeUnknown, None, now);
    SameIncidentsOpen(w, u.world);
    if u.Ok? {
      var m := MoveIncidentFrom(u.world, a.incidentId, Verifying, Recovering, now);
      MoveOpens(u.world, a.incidentId, Verifying, Recovering, now);
      RecoveryAndReportOpens(m, a.incidentId, Partial, u.value, OutboxRepository.OutcomeUnknownRow, now);
      OpenTrans(u.world, m, v);
      OpenTrans(w, u.world, v);
    }
  }

  lemma AfterRollbackOpens(w: World, a: ActionCommand, sent: ActionCommand, answer: ProviderAnswer, explicit: bool,
                           now: int, fail: Option<Failpoint>)
    ensures KeepsOpen(w, AfterRollback(w, a, sent, answer, explicit, now, fail).world)
  {
    var v := AfterRollback(w, a, sent, answer, explicit, now, fail).world;
    if answer.Ambiguous? || fail == Some(AfterRollbackProviderBeforeResult) {
      UnknownRollbackOpens(w, a, sent, answer, explicit, now, fail);
    } else {
      var u := UpdateAction(w, sent, ActionState.Failed, None, now).world;
      SaveRecoveryOpens(u, a.incidentId, RecoveryState.Failed, now);
      SameIncidentsOpen(w, u);
      OpenTrans(w, u, SaveRecovery(u, a.incidentId, RecoveryState.Failed, now).world);
      if v.incidents == w.incidents { SameIncidentsOpen(w, v); }
    }
  }

  lemma UnverifiedOpens(w: World, a: ActionCommand, accepted: ActionCommand, now: int)
    ensures KeepsOpen(w, AfterVerifyRollback(w, a, accepted, false, now).world)
  {
    var v := AfterVerifyRollback(w, a, accepted, false, now).world;
    var m := MoveIncidentFrom(w, a.incidentId, Verifying, Recovering, now);
    MoveOpens(w, a.incidentId, Verifying, Recovering, now);
    var u := UpdateAction(m, accepted, ReconciliationRequired, None, now);
    SameIncidentsOpen(m, u.world);
    OpenTrans(w, m, u.world);
    if u.Ok? {
      RecoveryAndReportOpens(u.world, a.incidentId, Partial, u.value, OutboxRepository.RecoveryRequiredRow, now);
      OpenTrans(w, u.world, v);
    }
  }

  // ---------------------------------------------------------------- the reconciler

  lemma EscalateOpens(w: World, incident: Id, v: Option<VerificationState>, o: IncidentOutcome, now: int)
    ensures KeepsOpen(w, WriteIncident(EscalateIncident(w, incident, now), incident, v, Some(o), None, now).world)
  {
    var w1 := MoveIncidentFrom(w, incident, Approved, Mitigating, now);
    var w2 := MoveIncidentFrom(w1, incident, Mitigating, Verifying, now);
    var w3 := EscalateIncident(w, incident, now);
    MoveOpens(w, incident, Approved, Mitigating, now);
    MoveOpens(w1, incident, Mitigating, Verifying, now);
    MoveOpens(w2, incident, Verifying, IncidentState.Escalated, now);
    WriteOpens(w3, incident, v, Some(o), None, now);
    OpenTrans(w, w1, w2);
    OpenTrans(w, w2, w3);
    OpenTrans(w, w3, WriteIncident(w3, incident, v, Some(o), None, now).world);
  }

  lemma SaveTerminalOpens(w: World, a: ActionCommand, count: nat, now: int)
    ensures KeepsOpen(w, SaveTerminalEscalation(w, a, count, now).world)
  {
    var w1 := SaveAttempt(w, a, count, ManualRequired, true, now);
    SameIncidentsOpen(w, w);
    EscalateOpens(w1, a.incidentId, Some(InsufficientEvidence), ManualReconciliationRequired, now);
    SameIncidentsOpen(w, w1);
    OpenTrans(w, w1, HandOver(w1, a.incidentId, now).world);
  }

  lemma ResourceGoneOpens(w: World, a: ActionCommand, now: int)
    ensures KeepsOpen(w, ResourceGone(w, a, now).world)
  {
    var r := Rewrite(w, a.commandId, ActionState.Failed, None, now);
    SameIncidentsOpen(w, r.world);
    if r.Ok? && a.incidentId in r.world.incidents.items {
      EscalateOpens(r.world, a.incidentId, None, RecoveryRequired, now);
      OpenTrans(w, r.world, ResourceGone(w, a, now).world);
    }
  }

  lemma FinishReadOpens(w: World, a: ActionCommand, attempt: nat, answer: ReadAnswer, now: int, crash: Crash)
    ensures KeepsOpen(w, FinishRead(w, a, attempt, answer, now, crash).world)
  {
    var w1 := SaveAttempt(w, a, attempt, Classify(a, answer), false, now);
    SameIncidentsOpen(w, w);
    SameIncidentsOpen(w, w1);
    if !crash.BeforePersist? && !crash.AfterPersist? {
      FollowOpens(w1, a, if a.commandId in w1.actions.byId then w1.actions.byId[a.commandId] else a, attempt, Classify(a, answer), answer, now);
      OpenTrans(w, w1, FinishRead(w, a, attempt, answer, now, crash).world);
    }
  }

  lemma FollowOpens(w: World, a: ActionCommand, current: ActionCommand, attempt: nat, outcome: ReadOutcome,
                    answer: ReadAnswer, now: int)
    requires outcome.ProviderAvailable? ==> answer.Resource?
    ensures KeepsOpen(w, Follow(w, a, current, attempt, outcome, answer, now).world)
  {
    if outcome.ProviderNotFound? {
      ResourceGoneOpens(w, a, now);
    } else {
      SameIncidentsOpen(w, Follow(w, a, current, attempt, outcome, answer, now).world);
    }
  }

  lemma UnimprovedConcludesOpen(w: World, a: ActionCommand, state: VerificationState, now: int)
    requires a.incidentId in w.incidents.items && !state.Improved?
    ensures Conclude(w, a, state, now).world.incidents == w.incidents
  {
    assert Rewrite(w, a.commandId, RollbackRequired, None, now).world.incidents == w.incidents;
    assert Rewrite(w, a.commandId, ReconciliationRequired, None, now).world.incidents == w.incidents;
  }

  lemma UnimprovedReverifyOpens(w: World, a: ActionCommand, attempt: nat, v: VerifyAnswer, now: int, crash: Crash)
    requires !ReverificationOf(v).Improved?
    ensures KeepsOpen(w, FinishReverify(w, a, attempt, v, now, crash).world)
  {
    var state := ReverificationOf(v);
    var w1 := SaveCheck(w, Reverify(a.commandId, attempt), a.incidentId, v, state, now);
    var w2 := WriteIncident(w1, a.incidentId, Some(state), None, None, now);
    SameIncidentsOpen(w, w1);
    WriteOpens(w1, a.incidentId, Some(state), None, None, now);
    OpenTrans(w, w1, w2.world);
    if w2.Ok? && !crash.AfterReverify? {
      UnimprovedConcludesOpen(w2.world, a, state, now);
      SameIncidentsOpen(w2.world, FinishReverify(w, a, attempt, v, now, crash).world);
      OpenTrans(w, w2.world, FinishReverify(w, a, attempt, v, now, crash).world);
    }
  }

  lemma ReverifyingOpens(w: World, a: ActionCommand, count: nat, s: Settings, now: int, crash: Crash)
    ensures KeepsOpen(w, Reverifying(w, a, count, s, now, crash).world)
  {
    var again := Unproven(w, a.commandId, count);
    var attempt := if again then count + 1 else count;
    var w1 := if again then SaveAttempt(w, a, attempt, ProviderAvailable, false, now) else w;
    SameIncidentsOpen(w, w1);
    UnimprovedReverifyOpens(w1, a, attempt, Unavailable, now, crash);
    OpenTrans(w, w1, FinishReverify(w1, a, attempt, Unavailable, now, crash).world);
  }

  lemma BeginReverifyOpens(w: World, a: ActionCommand, count: nat, s: Settings, now: int, crash: Crash)
    ensures KeepsOpen(w, BeginReverify(w, a, count, s, now, crash).world)
  {
    if Uncertain(a.state) {
      var r := Rewrite(w, a.commandId, Acknowledged, None, now);
      SameIncidentsOpen(w, r.world);
      if r.Ok? {
        ReverifyingOpens(r.world, r.value, count, s, now, crash);
        OpenTrans(w, r.world, BeginReverify(w, a, count, s, now, crash).world);
      }
    } else {
      ReverifyingOpens(w, a, count, s, now, crash);
    }
  }

  lemma ActOpens(w: World, a: ActionCommand, status: Status, count: nat, s: Settings, now: int, crash: Crash)
    ensures KeepsOpen(w, Act(w, a, status, count, s, now, crash).world)
  {
    SameIncidentsOpen(w, w);
    match status
    case DeadlineReached => SaveTerminalOpens(w, a, count, now);
    case ReadyForReverification => BeginReverifyOpens(w, a, count, s, now, crash);
    case Due => FinishReadOpens(w, a, count + 1, NoAnswer, now, if crash.BeforePersist? then NoCrash else crash);
    case _ =>
  }

  lemma BeginOpens(w: World, id: Id, s: Settings, rs: Retry, now: int, crash: Crash)
    ensures KeepsOpen(w, Begin(w, id, s, rs, now, crash).world)
  {
    SameIncidentsOpen(w, w);
    if id in w.actions.byId {
      var a := w.actions.byId[id];
      ActOpens(w, a, WorkStatus(w, a, rs, now), Count(Attempts(w, a.commandId)), s, now, crash);
    }
  }

  // ---------------------------------------------------------------- writes that gain nothing for others

  lemma GainsTrans(u: World, v: World, w: World, x: Id)
    requires GainsOnlyFor(u, v, x) && GainsOnlyFor(v, w, x)
    ensures GainsOnlyFor(u, w, x)
  {}

  /** A command is finished. */
  lemma FinishGains(w: World, a: ActionCommand, state: ActionState, now: int, x: Id)
    requires !Unfinished(state)
    ensures GainsOnlyFor(w, UpdateAction(w, a, state, None, now).world, x)
  {}

  lemma SelfGains(w: World, x: Id)
    ensures GainsOnlyFor(w, w, x)
  {}

  lemma WriteGains(w: World, id: Id, v: Option<VerificationState>, o: Option<IncidentOutcome>, r: Option<RecoveryState>,
                   now: int, x: Id)
    ensures GainsOnlyFor(w, WriteIncident(w, id, v, o, r, now).world, x)
  {}

  lemma MoveGains(w: World, x: Id, from: IncidentState, to: IncidentState, now: int)
    requires CanMove(from, to)
    ensures GainsOnlyFor(w, MoveIncidentFrom(w, x, from, to, now), x)
  {}

  lemma ReportGains(w: World, a: ActionCommand, status: OutboxRepository.ExecutionStatus, now: int, x: Id)
    ensures GainsOnlyFor(w, AppendOutbox(w, a, status, now).world, x)
  {}

  lemma SaveCheckGains(w: World, id: CheckId, incident: Id, v: VerifyAnswer, state: VerificationState, now: int, x: Id)
    requires !state.Pending?
    ensures GainsOnlyFor(w, SaveCheck(w, id, incident, v, state, now), x)
  {}

  lemma SaveRecoveryGains(w: World, x: Id, state: RecoveryState, now: int)
    ensures GainsOnlyFor(w, SaveRecovery(w, x, state, now).world, x)
  {
    SavedRecovery(w, x, state, now);
    SavedGains(w, SaveRecovery(w, x, state, now).world, x, state);
  }

  /** `v` is `w` but for the recovery of one incident, which may have been recorded as `state`. */
  ghost predicate Saves(w: World, v: World, x: Id, state: RecoveryState) {
    && v == w.(recovery := v.recovery, incidents := v.incidents)
    && (v.recovery == w.recovery || (x in v.recovery && v.recovery == w.recovery[x := v.recovery[x]] && v.recovery[x].state == state))
    && v.incidents.items.Keys == w.incidents.items.Keys
    && (forall id <- w.incidents.items ::
        v.incidents.items[id].state == w.incidents.items[id].state
          && v.incidents.items[id].correlationKey == w.incidents.items[id].correlationKey)
  }

  lemma SavedRecovery(w: World, x: Id, state: RecoveryState, now: int)
    ensures Saves(w, SaveRecovery(w, x, state, now).world, x, state)
  {
    var v := SaveRecovery(w, x, state, now).world;
    var r := RecoveryConsistency.SaveForward(RecoveryConsistency.Lookup(w.recovery, x), state);
    if r.None? {
      assert v == w;
    } else {
      SavedForward(w, x, state);
      assert v.recovery == w.recovery[x := r.value];
      if x in w.incidents.items {
        assert v.incidents == w.incidents.(items := w.incidents.items[x := RecoveryConsistency.Repaired(w.incidents.items[x], r.value.state, now)]);
      } else {
        assert v.incidents == w.incidents;
      }
    }
  }

  lemma SavedForward(w: World, x: Id, state: RecoveryState)
    ensures var r := RecoveryConsistency.SaveForward(RecoveryConsistency.Lookup(w.recovery, x), state); r.Some? ==>
              r.value.state == state
  {}

  lemma SavedGains(w: World, v: World, x: Id, state: RecoveryState)
    requires Saves(w, v, x, state)
    ensures GainsOnlyFor(w, v, x)
  {}

  lemma ResolveGains(w: World, x: Id, from: IncidentState, v: Option<VerificationState>, o: IncidentOutcome,
                     r: Option<RecoveryState>, now: int)
    requires CanMove(from, Resolved)
    ensures GainsOnlyFor(w, Resolve(w, x, from, v, o, r, now), x)
  {
    var m := MoveIncidentFrom(w, x, from, Resolved, now);
    MoveGains(w, x, from, Resolved, now);
    WriteGains(m, x, v, Some(o), r, now, x);
    GainsTrans(w, m, WriteIncident(m, x, v, Some(o), r, now).world, x);
    SelfGains(w, x);
  }

  lemma ReleaseGains(w: World, x: Id)
    ensures GainsOnlyFor(w, w.(leases := ReleaseAll(w.leases, x)), x)
  {}

  lemma MaybeResolveGains(w: World, x: Id, plan: int, now: int)
    ensures GainsOnlyFor(w, MaybeResolve(w, x, plan, now), x)
  {
    SelfGains(w, x);
    var r := Resolve(w, x, Verifying, Some(Improved), IncidentOutcome.VerifiedImproved, None, now);
    ResolveGains(w, x, Verifying, Some(Improved), IncidentOutcome.VerifiedImproved, None, now);
    assert r.leases == w.leases;
    ReleaseGains(r, x);
    GainsTrans(w, r, r.(leases := ReleaseAll(r.leases, x)), x);
  }

  // ---------------------------------------------------------------- a block

  /** A step of the executor on its way to the provider: it closes nothing, or it blocks an APPROVED incident. */
  ghost predicate BlocksOrOpen(w: World, v: World, x: Id) {
    KeepsOpen(w, v) || (GainsOnlyFor(w, v, x) && InState(w, x, Approved) && InState(v, x, Blocked))
  }

  /** The command's part of a block. */
  function BlockWritten(w: World, a: ActionCommand, now: int): Eff<ActionCommand> {
    var current := if a.commandId in w.actions.byId then w.actions.byId[a.commandId] else a;
    if current.state.Ready? then UpdateAction(w, current, ActionState.Failed, None, now) else Ok(w, current)
  }

  lemma PersistBlockWrites(w: World, a: ActionCommand, now: int, r: Eff<ActionCommand>)
    requires r == BlockWritten(w, a, now)
    ensures PersistBlock(w, a, now).world ==
            if r.Raised? then r.world
            else AppendOutbox(MoveIncidentFrom(r.world, a.incidentId, Approved, Blocked, now), r.value, OutboxRepository.BlockedRow, now).world
  {}

  lemma BlockWrittenGains(w: World, a: ActionCommand, now: int, x: Id)
    ensures GainsOnlyFor(w, BlockWritten(w, a, now).world, x) && BlockWritten(w, a, now).world.incidents == w.incidents
  {
    SelfGains(w, x);
    var current := if a.commandId in w.actions.byId then w.actions.byId[a.commandId] else a;
    FinishGains(w, current, ActionState.Failed, now, x);
  }

  lemma PersistBlockBlocks(w: World, a: ActionCommand, now: int)
    ensures BlocksOrOpen(w, PersistBlock(w, a, now).world, a.incidentId)
  {
    var x, r, v := a.incidentId, BlockWritten(w, a, now), PersistBlock(w, a, now).world;
    PersistBlockWrites(w, a, now, r);
    BlockWrittenGains(w, a, now, x);
    if r.Raised? || !InState(w, x, Approved) {
      SameIncidentsOpen(w, v);
    } else {
      var m := MoveIncidentFrom(r.world, x, Approved, Blocked, now);
      MoveGains(r.world, x, Approved, Blocked, now);
      ReportGains(m, r.value, OutboxRepository.BlockedRow, now, x);
      GainsTrans(w, r.world, m, x);
      GainsTrans(w, m, v, x);
    }
  }

  lemma CallProviderSame(w: World, sent: ActionCommand, s: Settings, t: Instants)
    ensures CallProvider(w, sent, s, t).world.incidents == w.incidents
  {
    SettleSame(w, sent, OutcomeUnknown, OutboxRepository.OutcomeUnknownRow, t.owned);
    if sent.commandId in w.actions.byId {
      SettleSame(w, w.actions.byId[sent.commandId], ActionState.Failed, OutboxRepository.BlockedRow, t.final);
    }
    ChargeSame(w, sent, t.final);
  }

  lemma ChargeSame(w: World, sent: ActionCommand, now: int)
    ensures ChargeAndCall(w, sent, now).world.incidents == w.incidents
  {
    SettleSame(RecordCost(w, sent).world, sent, ActionState.Failed, OutboxRepository.BlockedRow, now);
  }

  lemma ClaimedOpens(w: World, a: ActionCommand, s: Settings, t: Instants, fail: Option<Failpoint>)
    requires a.incidentId in w.incidents.items && a.state.Ready? && Eligible(w, a, s, t.rechecked)
    ensures KeepsOpen(w, TakeUp(w, a, s, t, fail).world)
  {
    var m := MoveIncidentFrom(w, a.incidentId, Approved, Mitigating, t.rechecked);
    var u := UpdateAction(m, a, ActionState.Sent, None, t.rechecked);
    MoveOpens(w, a.incidentId, Approved, Mitigating, t.rechecked);
    if u.Ok? { CallProviderSame(u.world, u.value, s, t); }
    SameIncidentsOpen(m, TakeUp(w, a, s, t, fail).world);
    OpenTrans(w, m, TakeUp(w, a, s, t, fail).world);
  }

  lemma TakeUpBlocks(w: World, a: ActionCommand, s: Settings, t: Instants, fail: Option<Failpoint>)
    requires a.incidentId in w.incidents.items
    ensures BlocksOrOpen(w, TakeUp(w, a, s, t, fail).world, a.incidentId)
  {
    if !a.state.Ready? {
      SameIncidentsOpen(w, w);
    } else if !Eligible(w, a, s, t.rechecked) {
      PersistBlockBlocks(w, a, t.rechecked);
    } else {
      ClaimedOpens(w, a, s, t, fail);
    }
  }

  /** With the lease taken: it belongs to the incident. */
  lemma OwnedBlocks(w: World, leased: World, v: World, a: ActionCommand, now: int)
    requires EnsureOwnership(w, a, now) == Some(leased) && BlocksOrOpen(leased, v, a.incidentId)
    ensures BlocksOrOpen(w, v, a.incidentId)
  {
    LeaseGains(w, leased, a, now);
    SameIncidentsOpen(w, leased);
    if KeepsOpen(leased, v) { OpenTrans(w, leased, v); } else { GainsTrans(w, leased, v, a.incidentId); }
  }

  lemma LeaseGains(w: World, leased: World, a: ActionCommand, now: int)
    requires EnsureOwnership(w, a, now) == Some(leased)
    ensures GainsOnlyFor(w, leased, a.incidentId) && leased.incidents == w.incidents
  {
    LeaseIs(w, leased, a, now);
  }

  lemma LeaseIs(w: World, leased: World, a: ActionCommand, now: int)
    requires EnsureOwnership(w, a, now) == Some(leased)
    ensures leased == w.(leases := leased.leases)
    ensures leased.leases == w.leases
            || (a.resourceKey in leased.leases && leased.leases[a.resourceKey].owner == a.incidentId
                && leased.leases == w.leases[a.resourceKey := leased.leases[a.resourceKey]])
  {}

  lemma OwnBlocks(w: World, a: ActionCommand, s: Settings, t: Instants, fail: Option<Failpoint>)
    requires a.incidentId in w.incidents.items
    ensures BlocksOrOpen(w, Own(w, a, s, t, fail).world, a.incidentId)
  {
    SameIncidentsOpen(w, w);
    var leased := EnsureOwnership(w, a, t.leased);
    if fail != Some(BeforeOwnership) {
      if leased.None? {
        PersistBlockBlocks(w, a, t.leased);
      } else {
        SameIncidentsOpen(leased.value, leased.value);
        TakeUpBlocks(leased.value, a, s, t, fail);
        OwnedBlocks(w, leased.value, Own(w, a, s, t, fail).world, a, t.leased);
      }
    }
  }

  lemma StartBlocks(w: World, id: Id, s: Settings, cap: Capability, freshId: Id, t: Instants, fail: Option<Failpoint>)
    requires w.actions.Filed()
    ensures var v := Start(w, id, s, cap, freshId, t, fail).world;
            if id in w.actions.byId then BlocksOrOpen(w, v, w.actions.byId[id].incidentId) else v == w
  {
    SameIncidentsOpen(w, w);
    if id in w.actions.byId {
      var a := w.actions.byId[id];
      match a.state
      case OutcomeUnknown => SameIncidentsOpen(w, BeginReconcile(w, a, t.checked).world);
      case ReconciliationRequired => SameIncidentsOpen(w, BeginReconcile(w, a, t.checked).world);
      case Acknowledged => BeginVerifyOpens(w, w, a, t.checked);
      case RollbackRequired => BeginRollbackOpens(w, a, s, cap, freshId, t.checked, fail);
      case Ready => StartReadyBlocks(w, a, s, cap, t, fail);
      case _ =>
    }
  }

  lemma StartReadyBlocks(w: World, a: ActionCommand, s: Settings, cap: Capability, t: Instants, fail: Option<Failpoint>)
    requires a.commandId in w.actions.byId && w.actions.byId[a.commandId] == a
    ensures BlocksOrOpen(w, StartReady(w, a, s, cap, t, fail).world, a.incidentId)
  {
    if a.incidentId !in w.incidents.items || !Eligible(w, a, s, t.checked) || !ModeAllows(s) || !cap.mutation {
      PersistBlockBlocks(w, a, t.checked);
    } else {
      OwnBlocks(w, a, s, t, fail);
    }
  }

  // ---------------------------------------------------------------- verifications

  /** The end of a proven mitigation. */
  lemma ImprovedGains(w: World, a: ActionCommand, s: Settings, cap: Capability, freshId: Id, now: int,
                      fail: Option<Failpoint>)
    requires w.actions.Filed()
    ensures GainsOnlyFor(w, Publish(w, a, Improved, s, cap, freshId, now, fail).world, a.incidentId)
  {
    var x := a.incidentId;
    var u := UpdateAction(w, a, Success, None, now);
    FinishGains(w, a, Success, now, x);
    if u.Ok? {
      var m := MaybeResolve(u.world, x, a.planVersion, now);
      MaybeResolveGains(u.world, x, a.planVersion, now);
      ReportGains(m, u.value, OutboxRepository.VerifiedRow, now, x);
      GainsTrans(w, u.world, m, x);
      GainsTrans(w, m, AppendOutbox(m, u.value, OutboxRepository.VerifiedRow, now).world, x);
    }
  }

  lemma UnimprovedPublishOpens(w: World, a: ActionCommand, state: VerificationState, s: Settings, cap: Capability,
                               freshId: Id, now: int, fail: Option<Failpoint>)
    requires w.actions.Filed() && !state.Improved?
    ensures KeepsOpen(w, Publish(w, a, state, s, cap, freshId, now, fail).world)
  {
    var v := Publish(w, a, state, s, cap, freshId, now, fail).world;
    if state.Unchanged? || state.Degraded? {
      var u := UpdateAction(w, a, RollbackRequired, None, now);
      SameIncidentsOpen(w, u.world);
      if u.Ok? {
        BeginRollbackOpens(u.world, u.value, s, cap, freshId, now, fail);
        OpenTrans(w, u.world, v);
      }
    } else {
      SettleSame(w, a, ReconciliationRequired, OutboxRepository.VerificationUnavailableRow, now);
      SameIncidentsOpen(w, v);
    }
  }

  lemma AfterVerifyCloses(w: World, a: ActionCommand, verdict: VerifyAnswer, s: Settings, cap: Capability, freshId: Id,
                          now: int, fail: Option<Failpoint>)
    requires w.actions.Filed()
    ensures var v := AfterVerify(w, a, verdict, s, cap, freshId, now, fail).world;
            KeepsOpen(w, v) || (VerificationOf(verdict).Improved? && GainsOnlyFor(w, v, a.incidentId))
  {
    var x, state, v := a.incidentId, VerificationOf(verdict), AfterVerify(w, a, verdict, s, cap, freshId, now, fail).world;
    var w1 := SaveCheck(w, Verify(a.commandId), x, verdict, state, now);
    var w2 := WriteIncident(w1, x, Some(state), None, None, now);
    SameIncidentsOpen(w, w1);
    WriteOpens(w1, x, Some(state), None, None, now);
    OpenTrans(w, w1, w2.world);
    if w2.Ok? && fail != Some(AfterVerificationBeforePublication) {
      if state.Improved? {
        SaveCheckGains(w, Verify(a.commandId), x, verdict, state, now, x);
        WriteGains(w1, x, Some(state), None, None, now, x);
        GainsTrans(w, w1, w2.world, x);
        ImprovedGains(w2.world, a, s, cap, freshId, now, fail);
        GainsTrans(w, w2.world, v, x);
      } else {
        UnimprovedPublishOpens(w2.world, a, state, s, cap, freshId, now, fail);
        OpenTrans(w, w2.world, v);
      }
    }
  }

  /** The incident that the re-verification of a command concerns: that of the stored command. */
  function StoredIncident(w: World, a: ActionCommand): Id {
    if a.commandId in w.actions.byId then w.actions.byId[a.commandId].incidentId else a.incidentId
  }

  lemma ConcludeGains(w: World, a: ActionCommand, now: int)
    requires a.incidentId in w.incidents.items
    ensures GainsOnlyFor(w, Conclude(w, a, Improved, now).world, StoredIncident(w, a))
  {
    var x := StoredIncident(w, a);
    SelfGains(w, x);
    if a.commandId in w.actions.byId {
      var r := UpdateAction(w, w.actions.byId[a.commandId], Success, None, now);
      FinishGains(w, w.actions.byId[a.commandId], Success, now, x);
      if r.Ok? {
        MaybeResolveGains(r.world, x, r.value.planVersion, now);
        GainsTrans(w, r.world, MaybeResolve(r.world, x, r.value.planVersion, now), x);
      }
    }
  }

  lemma FinishReverifyCloses(w: World, a: ActionCommand, attempt: nat, verdict: VerifyAnswer, now: int, crash: Crash)
    ensures var v := FinishReverify(w, a, attempt, verdict, now, crash).world;
            KeepsOpen(w, v) || (ReverificationOf(verdict).Improved? && GainsOnlyFor(w, v, StoredIncident(w, a)))
  {
    var x, state, v := StoredIncident(w, a), ReverificationOf(verdict), FinishReverify(w, a, attempt, verdict, now, crash).world;
    if !state.Improved? {
      UnimprovedReverifyOpens(w, a, attempt, verdict, now, crash);
    } else {
      var w1 := SaveCheck(w, Reverify(a.commandId, attempt), a.incidentId, verdict, state, now);
      var w2 := WriteIncident(w1, a.incidentId, Some(state), None, None, now);
      SaveCheckGains(w, Reverify(a.commandId, attempt), a.incidentId, verdict, state, now, x);
      WriteGains(w1, a.incidentId, Some(state), None, None, now, x);
      GainsTrans(w, w1, w2.world, x);
      if w2.Ok? && !crash.AfterReverify? {
        ConcludeGains(w2.world, a, now);
        GainsTrans(w, w2.world, v, x);
      }
    }
  }

  // ---------------------------------------------------------------- a verified rollback

  lemma UndoGains(w: World, a: ActionCommand, now: int, x: Id)
    ensures GainsOnlyFor(w, UndoOriginal(w, a, now).world, x)
  {
    SelfGains(w, x);
    FinishGains(w, if a.commandId in w.actions.byId then w.actions.byId[a.commandId] else a, RolledBack, now, x);
  }

  lemma FinishRollbackGains(w: World, a: ActionCommand, accepted: ActionCommand, now: int)
    ensures GainsOnlyFor(w, FinishRollback(w, a, accepted, now).world, a.incidentId)
  {
    var x := a.incidentId;
    var u := UpdateAction(w, accepted, RolledBack, None, now);
    FinishGains(w, accepted, RolledBack, now, x);
    if u.Ok? {
      var o := UndoOriginal(u.world, a, now);
      UndoGains(u.world, a, now, x);
      GainsTrans(w, u.world, o.world, x);
      if o.Ok? { RecoveredGains(w, o.world, a, u.value, now, FinishRollback(w, a, accepted, now).world); }
    }
  }

  /** The recovery record, the incident and the row of a verified rollback. */
  lemma RecoveredGains(w: World, o: World, a: ActionCommand, completed: ActionCommand, now: int, v: World)
    requires GainsOnlyFor(w, o, a.incidentId)
    requires var r := SaveRecovery(o, a.incidentId, RecoveryState.Complete, now);
             v == if r.Raised? then r.world
                  else AppendOutbox(ResolveRolledBack(r.world, a.incidentId, now), completed, OutboxRepository.RolledBackRow, now).world
    ensures GainsOnlyFor(w, v, a.incidentId)
  {
    var x := a.incidentId;
    var r := SaveRecovery(o, x, RecoveryState.Complete, now);
    SaveRecoveryGains(o, x, RecoveryState.Complete, now);
    GainsTrans(w, o, r.world, x);
    if r.Ok? {
      var m := ResolveRolledBack(r.world, x, now);
      ResolveGains(r.world, x, Recovering, None, RolledBackSafely, Some(RecoveryState.Complete), now);
      ReportGains(m, completed, OutboxRepository.RolledBackRow, now, x);
      GainsTrans(w, r.world, m, x);
      GainsTrans(w, m, v, x);
    }
  }

  lemma VerifiedRollbackGains(w: World, a: ActionCommand, accepted: ActionCommand, now: int)
    ensures GainsOnlyFor(w, AfterVerifyRollback(w, a, accepted, true, now).world, a.incidentId)
  {
    var m := MoveIncidentFrom(w, a.incidentId, Verifying, Recovering, now);
    MoveGains(w, a.incidentId, Verifying, Recovering, now);
    var j := m.(journal := m.journal.(undone := m.journal.undone + {a.commandId, accepted.commandId},
                                      recovered := m.journal.recovered + {a.incidentId}));
    assert GainsOnlyFor(m, j, a.incidentId);
    GainsTrans(w, m, j, a.incidentId);
    FinishRollbackGains(j, a, accepted, now);
    GainsTrans(w, j, AfterVerifyRollback(w, a, accepted, true, now).world, a.incidentId);
  }

  // ---------------------------------------------------------------- decisions and operators

  /** What a decision writes of the incidents. */
  lemma CommitIncidents(w: World, v: Verdict, now: int)
    requires !v.decision.Undecided? && v.incidentId in w.incidents.items
    ensures var u := Commit(w, v, now).world;
            && u == w.(incidents := u.incidents, outbox := u.outbox) && u.incidents.items.Keys == w.incidents.items.Keys
            && (forall x <- w.incidents.items :: x != v.incidentId ==> u.incidents.items[x] == w.incidents.items[x])
            && (u.incidents == w.incidents || u.incidents.items[v.incidentId].state == TargetOf(v.decision))
  {
    if CanAdvance(w.incidents.items[v.incidentId].state, TargetOf(v.decision)) {
      AdvanceReaches(w.incidents, v.incidentId, TargetOf(v.decision), now);
    }
  }

  lemma DecideIncidents(w: World, v: Verdict, now: int)
    requires w.actions.Filed() && !v.decision.Undecided?
    ensures var u := Decide(w, v, now).world;
            && (u.incidents == w.incidents
                || (&& v.incidentId in w.incidents.items && u.incidents.items.Keys == w.incidents.items.Keys
                    && (forall x <- w.incidents.items :: x != v.incidentId ==> u.incidents.items[x] == w.incidents.items[x])
                    && u.incidents.items[v.incidentId].state == TargetOf(v.decision)))
            && u == w.(actions := u.actions, incidents := u.incidents, outbox := u.outbox)
            && (!v.decision.Allow? ==> u.actions == w.actions)
  {
    if v.incidentId in w.incidents.items && !AlreadyDecided(w.incidents.items[v.incidentId])
        && !Stale(w.incidents.items[v.incidentId], v) {
      FreshDelivery(w, v, now);
      CommitIncidents(if v.decision.Allow? then w.(actions := CreateAll(w.actions, v.commands)) else w, v, now);
    }
  }

  lemma DecisionCloses(w: World, v: Verdict, now: int, x: Id)
    requires w.actions.Filed() && !v.decision.Undecided? && Closing(w, Decide(w, v, now).world, x)
    ensures v.decision.Block? && x == v.incidentId && InState(Decide(w, v, now).world, x, Blocked)
    ensures ClosesOnly(w, Decide(w, v, now).world, x) && Decide(w, v, now).world.actions == w.actions
    ensures Decide(w, v, now).world.recovery == w.recovery
  {
    DecideIncidents(w, v, now);
  }

  lemma OperatorCloses(w: World, id: Id, to: IncidentState, now: int, x: Id)
    requires w.incidents.Transition(id, to, now).Done? && Closing(w, w.(incidents := w.incidents.Transition(id, to, now).value), x)
    ensures x == id && Closed(to) && ClosesOnly(w, w.(incidents := w.incidents.Transition(id, to, now).value), x)
  {}

  lemma SameFinishes(w: World, v: World)
    requires v.actions == w.actions
    ensures Finishes(w, v, None)
  {}

  /** A decision that closes an incident is a BLOCK.  It releases no lease and settles no command that an earlier
      delivery stored, so the restart accepts exactly when there was none of either. */
  lemma DecisionReconstructs(w: World, v: Verdict, now: int, later: int)
    requires Accepts(w) && w.actions.Filed() && !v.decision.Undecided? && Closing(w, Decide(w, v, now).world, v.incidentId)
    ensures v.decision.Block? && InState(Decide(w, v, now).world, v.incidentId, Blocked)
    ensures Accepts(Reconstructed(Decide(w, v, now).world, later)) <==>
            && !HoldsLease(w, v.incidentId) && !Recovers(w, v.incidentId) && !HasPendingRead(w, v.incidentId)
            && !HasSibling(w, v.incidentId, None)
  {
    DecisionCloses(w, v, now, v.incidentId);
    SameFinishes(w, Decide(w, v, now).world);
    ClosedByWrites(w, Decide(w, v, now).world, v.incidentId, None, later);
  }

  /** An operator closes an incident as it stands. */
  lemma OperatorReconstructs(w: World, id: Id, to: IncidentState, now: int, later: int)
    requires Accepts(w) && Closed(to) && w.incidents.Transition(id, to, now).Done?
    ensures Accepts(Reconstructed(w.(incidents := w.incidents.Transition(id, to, now).value), later)) <==>
            !HoldsLease(w, id) && !Recovers(w, id) && !HasPendingRead(w, id) && !HasSibling(w, id, None)
  {
    var v := w.(incidents := w.incidents.Transition(id, to, now).value);
    OperatorCloses(w, id, to, now, id);
    SameFinishes(w, v);
    ClosedByWrites(w, v, id, None, later);
  }

  // ---------------------------------------------------------------- after the incident is closed

  lemma RecordedRollbackStrands(w: World, a: ActionCommand, sent: ActionCommand, now: int, fail: Option<Failpoint>)
    requires sent.commandId in w.actions.byId && w.actions.byId[sent.commandId] == sent && sent.state.Sent?
    ensures var v := ClaimedRollback(w, a, sent, now, fail).world;
            && sent.commandId in v.actions.byId && Unfinished(v.actions.byId[sent.commandId].state)
            && v.actions.byId[sent.commandId].incidentId == sent.incidentId
  {
    var r := SaveRecovery(w, a.incidentId, Releasing, now);
    assert r.world.actions == w.actions;
    SettledUnknownStrands(r.world, sent, now);
  }

  lemma SettledUnknownStrands(w: World, sent: ActionCommand, now: int)
    requires sent.commandId in w.actions.byId && w.actions.byId[sent.commandId] == sent
    ensures var v := Settle(w, sent, OutcomeUnknown, OutboxRepository.OutcomeUnknownRow, now).world;
            && sent.commandId in v.actions.byId && Unfinished(v.actions.byId[sent.commandId].state)
            && v.actions.byId[sent.commandId].incidentId == sent.incidentId
  {}

  lemma UndertakenStrands(w: World, a: ActionCommand, r: ActionCommand, now: int, fail: Option<Failpoint>)
    requires r.commandId in w.actions.byId && w.actions.byId[r.commandId] == r && r.state.Ready?
    ensures var v := Undertake(w, a, r, now, fail).world;
            && r.commandId in v.actions.byId && Unfinished(v.actions.byId[r.commandId].state)
               && v.actions.byId[r.commandId].incidentId == r.incidentId
  {
    var u := UpdateAction(w, r, ActionState.Sent, None, now);
    RecordedRollbackStrands(u.world, a, u.value, now, fail);
  }

  /** The rollback handler creates a command. */
  predicate CreatesRollback(w: World, a: ActionCommand, s: Settings, cap: Capability) {
    ModeAllows(s) && cap.rollback && a.providerResourceId.Some? && IsPlanType(a.commandType) && a.RollbackKey() !in w.actions.byKey
  }

  lemma CreatedRollbackStrands(w: World, a: ActionCommand, s: Settings, cap: Capability, freshId: Id, now: int,
                               fail: Option<Failpoint>)
    requires w.actions.Filed() && freshId !in w.actions.byId && CreatesRollback(w, a, s, cap)
    ensures var v := BeginRollback(w, a, s, cap, freshId, now, fail).world;
            freshId in v.actions.byId && Unfinished(v.actions.byId[freshId].state)
              && v.actions.byId[freshId].incidentId == a.incidentId
  {
    var (store, r) := w.actions.CreateOrGet(RollbackCommand(a, freshId, now));
    UndertakenStrands(w.(actions := store), a, r, now, fail);
  }

  /** What the restart checks is the same in `v`, except that the recovery of `x` may have been recorded as failed. */
  ghost predicate ChecksSame(w: World, v: World, x: Id) {
    && v.actions == w.actions && v.leases == w.leases && v.checks == w.checks && v.attempts == w.attempts
    && v.incidents.items.Keys == w.incidents.items.Keys
    && (forall id <- w.incidents.items ::
        v.incidents.items[id].state == w.incidents.items[id].state
          && v.incidents.items[id].correlationKey == w.incidents.items[id].correlationKey)
    && (forall id <- v.recovery :: InProgress(v.recovery[id].state) ==> id in w.recovery && v.recovery[id] == w.recovery[id])
  }

  lemma ChecksSameAccepted(w: World, v: World, x: Id)
    requires Accepts(w) && ChecksSame(w, v, x)
    ensures Accepts(v)
  {
    forall id
      ensures Active(v, id) <==> Active(w, id)
    {}
  }

  lemma RefusedSame(w: World, a: ActionCommand, now: int)
    requires !Active(w, a.incidentId)
    ensures ChecksSame(w, RefuseRollback(w, a, now).world, a.incidentId)
  {
    var r := SaveRecovery(w, a.incidentId, RecoveryState.Failed, now);
    FailedRecoverySame(w, a.incidentId, now);
    if r.Ok? {
      SaveRecoveryActive(w, a.incidentId, RecoveryState.Failed, now, a.incidentId);
      RefusedIs(r.world, a, now);
      assert RefuseRollback(w, a, now).world == r.world.(outbox := RefuseRollback(w, a, now).world.outbox);
    }
  }

  lemma FailedRecoverySame(w: World, x: Id, now: int)
    ensures ChecksSame(w, SaveRecovery(w, x, RecoveryState.Failed, now).world, x)
  {
    SavedRecovery(w, x, RecoveryState.Failed, now);
    SavedFailedSame(w, SaveRecovery(w, x, RecoveryState.Failed, now).world, x);
  }

  lemma SavedFailedSame(w: World, v: World, x: Id)
    requires Saves(w, v, x, RecoveryState.Failed)
    ensures ChecksSame(w, v, x)
  {}

  /** A closed incident is not moved. */
  lemma RefusedIs(w: World, a: ActionCommand, now: int)
    requires !Active(w, a.incidentId)
    ensures var v := AppendOutbox(MoveIncidentFrom(w, a.incidentId, Verifying, IncidentState.Escalated, now), a,
                                  OutboxRepository.RecoveryRequiredRow, now).world;
            v == w.(outbox := v.outbox)
  {}

  /** A known rollback command of a closed incident is finished, as long as the restart accepts. */
  lemma KnownIsFinished(w: World, a: ActionCommand, r: ActionCommand)
    requires Accepts(w) && w.actions.Indexed() && !Active(w, a.incidentId) && IsPlanType(a.commandType)
    requires a.RollbackKey() in w.actions.byKey && r == w.actions.byId[w.actions.byKey[a.RollbackKey()]]
    ensures !Unfinished(r.state)
  {
    assert r.Key() == a.RollbackKey();
  }

  lemma NoNewRollbackSame(w: World, a: ActionCommand, s: Settings, cap: Capability, freshId: Id, now: int,
                          fail: Option<Failpoint>)
    requires Accepts(w) && w.actions.Filed() && w.actions.Indexed() && !Active(w, a.incidentId) && !CreatesRollback(w, a, s, cap)
    ensures ChecksSame(w, BeginRollback(w, a, s, cap, freshId, now, fail).world, a.incidentId)
  {
    if ModeAllows(s) && (!cap.rollback || a.providerResourceId.None?) {
      RefusedSame(w, a, now);
    } else if ModeAllows(s) && IsPlanType(a.commandType) {
      KnownIsFinished(w, a, w.actions.byId[w.actions.byKey[a.RollbackKey()]]);
    }
  }

  lemma StrandedIsRefused(v: World, id: Id, later: int)
    requires id in v.actions.byId && Unfinished(v.actions.byId[id].state) && !Active(v, v.actions.byId[id].incidentId)
    ensures !Accepts(Reconstructed(v, later))
  {
    AcceptedBeforehand(v, later);
  }

  lemma SaveRecoveryActive(w: World, id: Id, state: RecoveryState, now: int, x: Id)
    ensures Active(SaveRecovery(w, id, state, now).world, x) <==> Active(w, x)
  {}

  lemma UndertakeActive(w: World, a: ActionCommand, r: ActionCommand, now: int, fail: Option<Failpoint>, x: Id)
    ensures Active(Undertake(w, a, r, now, fail).world, x) <==> Active(w, x)
  {
    var v, u := Undertake(w, a, r, now, fail).world, UpdateAction(w, r, ActionState.Sent, None, now);
    if r.state.Ready? && u.Ok? {
      assert v == ClaimedRollback(u.world, a, u.value, now, fail).world;
      ClaimedRollbackSaves(u.world, a, u.value, now, fail);
      SaveRecoveryActive(u.world, a.incidentId, Releasing, now, x);
    } else {
      assert v.incidents == w.incidents;
    }
  }

  /** A command of a closed incident is rolled back after all: whatever becomes of it, the restart is refused exactly
      when the handler created a rollback command.  In particular when the incident's recovery is COMPLETE already and
      the handler raises before the provider is called. */
  lemma LateRollbackReconstructs(w: World, a: ActionCommand, s: Settings, cap: Capability, freshId: Id, now: int,
                                 fail: Option<Failpoint>, later: int)
    requires Accepts(w) && w.actions.Filed() && w.actions.Indexed() && freshId !in w.actions.byId && !Active(w, a.incidentId)
    ensures Accepts(Reconstructed(BeginRollback(w, a, s, cap, freshId, now, fail).world, later)) <==> !CreatesRollback(w, a, s, cap)
  {
    var v := BeginRollback(w, a, s, cap, freshId, now, fail).world;
    if CreatesRollback(w, a, s, cap) {
      var (store, r) := w.actions.CreateOrGet(RollbackCommand(a, freshId, now));
      CreatedRollbackStrands(w, a, s, cap, freshId, now, fail);
      UndertakeActive(w.(actions := store), a, r, now, fail, a.incidentId);
      StrandedIsRefused(v, freshId, later);
    } else {
      NoNewRollbackSame(w, a, s, cap, freshId, now, fail);
      ChecksSameAccepted(w, v, a.incidentId);
      AcceptedBeforehand(v, later);
    }
  }

  // ---------------------------------------------------------------- all of them

  /** The kinds of step that close an incident. */
  predicate ClosesBy(w: World, e: Runs.Event, x: Id) {
    match e
    case Execute(id, _, _, _, _) => id in w.actions.byId && w.actions.byId[id].incidentId == x && InState(w, x, Approved)
    case VerifyAnswered(a, verdict, _, _, _, _) => VerificationOf(verdict).Improved? && a.incidentId == x
    case RollbackVerified(a, _, verified, _) => verified && a.incidentId == x
    case ReverifyAnswered(a, _, verdict, _, _) => ReverificationOf(verdict).Improved? && StoredIncident(w, a) == x
    case Decision(v, _) => v.decision.Block? && v.incidentId == x
    case Operated(id, to, _) => Closed(to) && id == x
    case _ => false
  }

  lemma OpenClosesNothing(w: World, v: World, x: Id)
    requires KeepsOpen(w, v)
    ensures !Closing(w, v, x)
  {}

  lemma GainedCloses(w: World, v: World, x: Id, y: Id)
    requires GainsOnlyFor(w, v, y) && Closing(w, v, x)
    ensures x == y && Closes(w, v, x)
  {}

  lemma ExecutorCloses(w: World, e: Runs.Event, c: Runs.Config, x: Id)
    requires w.actions.Filed() && Runs.Admissible(w, e) && Closing(w, Runs.Step(w, e, c), x)
    requires e.Execute? || e.VerifyAnswered? || e.RollbackVerified? || e.ReverifyAnswered?
    ensures ClosesBy(w, e, x) && Closes(w, Runs.Step(w, e, c), x)
  {
    var v := Runs.Step(w, e, c);
    if KeepsOpen(w, v) { OpenClosesNothing(w, v, x); }
    match e
    case Execute(id, cap, freshId, t, fail) =>
      StartBlocks(w, id, c.settings, cap, freshId, t, fail);
      GainedCloses(w, v, x, w.actions.byId[id].incidentId);
    case VerifyAnswered(a, verdict, cap, freshId, now, fail) =>
      AfterVerifyCloses(w, a, verdict, c.settings, cap, freshId, now, fail);
      GainedCloses(w, v, x, a.incidentId);
    case RollbackVerified(a, accepted, verified, now) =>
      if verified { VerifiedRollbackGains(w, a, accepted, now); } else { UnverifiedOpens(w, a, accepted, now); }
      GainedCloses(w, v, x, a.incidentId);
    case ReverifyAnswered(a, attempt, verdict, now, crash) =>
      FinishReverifyCloses(w, a, attempt, verdict, now, crash);
      GainedCloses(w, v, x, StoredIncident(w, a));
  }

  lemma OthersClose(w: World, e: Runs.Event, c: Runs.Config, x: Id)
    requires w.actions.Filed() && Runs.Admissible(w, e) && (e.Decision? || e.Operated?) && Closing(w, Runs.Step(w, e, c), x)
    ensures ClosesBy(w, e, x) && Closes(w, Runs.Step(w, e, c), x)
  {
    var v := Runs.Step(w, e, c);
    match e
    case Decision(d, now) => DecisionCloses(w, d, now, x);
    case Operated(id, to, now) => OperatorCloses(w, id, to, now, x);
    SameFinishes(w, v);
    WritesClose(w, v, x, None);
  }

  lemma AsideOpens(w: World, e: Runs.Event, c: Runs.Config)
    requires w.actions.Filed() && Runs.Admissible(w, e) && (e.Restarted? || e.ProjectionRepaired? || e.Opened? || e.Renewed?)
    ensures KeepsOpen(w, Runs.Step(w, e, c))
  {}

  lemma AnswersOpen(w: World, e: Runs.Event, c: Runs.Config)
    requires w.actions.Filed() && Runs.Admissible(w, e)
    requires e.ExecuteAnswered? || e.ReconcileAnswered? || e.RollbackAnswered? || e.Reconcile? || e.ReadAnswered?
    ensures KeepsOpen(w, Runs.Step(w, e, c))
  {
    match e
    case ExecuteAnswered(sent, provider, now, fail) => AfterExecuteOpens(w, sent, provider, now, fail);
    case ReconcileAnswered(a, found, now) => AfterReconcileOpens(w, a, found, now);
    case RollbackAnswered(a, sent, provider, explicit, now, fail) => AfterRollbackOpens(w, a, sent, provider, explicit, now, fail);
    case Reconcile(id, now, crash) => BeginOpens(w, id, c.settings, c.retry, now, crash);
    case ReadAnswered(a, attempt, read, now, crash) => FinishReadOpens(w, a, attempt, read, now, crash);
  }

  /** Only the listed kinds of step close an incident, and each of them gains nothing for any other. */
  lemma StepCloses(w: World, e: Runs.Event, c: Runs.Config, x: Id)
    requires w.actions.Filed() && Runs.Admissible(w, e) && Closing(w, Runs.Step(w, e, c), x)
    ensures ClosesBy(w, e, x) && Closes(w, Runs.Step(w, e, c), x)
  {
    var v := Runs.Step(w, e, c);
    if e.Execute? || e.VerifyAnswered? || e.RollbackVerified? || e.ReverifyAnswered? {
      ExecutorCloses(w, e, c, x);
    } else if e.Decision? || e.Operated? {
      OthersClose(w, e, c, x);
    } else {
      if e.Restarted? || e.ProjectionRepaired? || e.Opened? || e.Renewed? { AsideOpens(w, e, c); } else { AnswersOpen(w, e, c); }
      OpenClosesNothing(w, v, x);
    }
  }

  /** In every run: a step that closes an incident is of one of the listed kinds, and if the state before it would have
      been accepted by a restart, the state after it is accepted exactly when nothing is left of that incident. */
  lemma ClosingReconstructs(worlds: seq<World>, events: seq<Runs.Event>, c: Runs.Config, k: nat, x: Id, later: int)
    requires Runs.Run(worlds, events, c) && k < |events| && Accepts(worlds[k]) && Closing(worlds[k], worlds[k + 1], x)
    ensures ClosesBy(worlds[k], events[k], x)
    ensures Accepts(Reconstructed(worlds[k + 1], later)) <==> NothingLeft(worlds[k + 1], x)
  {
    StepCloses(worlds[k], events[k], c, x);
    ClosedReconstructs(worlds[k], worlds[k + 1], x, later);
  }
}
