/** What each segment of the executor, the reconciler and the decision handler keeps: one lemma a segment,
    from the segment's function to what the theorems about whole runs need of it. */
module ExecutionSegments {
  import opened Options
  import opened DurableCore
  import opened IncidentRepository
  import opened Execution
  import opened CallConditions
  import opened Reconciliation
  import opened Decisions
  import OutboxRepository

  // ---------------------------------------------------------------- what a segment keeps

  /** A segment that neither charges, nor calls `execute`, nor resolves an incident. */
  ghost predicate Keeps(w: World, v: World) {
    && v.ledger == w.ledger
    && OnlyRollbacks(w, v)
    && Accounted(w, v)
    && (forall id <- v.incidents.items :: v.incidents.items[id].state.Resolved? ==> InState(w, id, Resolved))
  }

  /** The same, except that incidents may be resolved, each for a reason that still stands. */
  ghost predicate Earns(w: World, v: World) {
    && v.ledger == w.ledger
    && OnlyRollbacks(w, v)
    && Accounted(w, v)
    && ResolvedForCause(w, v)
  }

  ghost predicate OnlyRollbacks(w: World, v: World) {
    w.journal.calls <= v.journal.calls
    && forall i :: |w.journal.calls| <= i < |v.journal.calls| ==> v.journal.calls[i].RollbackCall?
  }

  /** Every new SUCCESS or ROLLED_BACK has its evidence in the journal already. */
  ghost predicate Accounted(w: World, v: World) {
    && v.journal.improved == w.journal.improved && v.journal.undone == w.journal.undone
    && v.journal.recovered == w.journal.recovered
    && EndsEarned(w, v) && NoneReadied(w, v) && NoNewProof(w, v)
    && (w.actions.Filed() ==> v.actions.Filed())
  }

  /** No improvement is on record that was not on record before. */
  ghost predicate NoNewProof(w: World, v: World) {
    forall c <- v.checks :: v.checks[c].improved ==>
      c in w.checks && w.checks[c].improved && w.checks[c].incidentId == v.checks[c].incidentId
  }

  /** No command is forgotten, and none goes back to READY. */
  ghost predicate NoneReadied(w: World, v: World) {
    && (forall id <- w.actions.byId :: id in v.actions.byId)
    && (forall id <- v.actions.byId :: v.actions.byId[id].state.Ready? && id in w.actions.byId ==> w.actions.byId[id].state.Ready?)
  }

  /** Every incident that became RESOLVED did so with all commands of a plan SUCCESS and an improvement
      on record, or after a verified rollback. */
  ghost predicate ResolvedForCause(w: World, v: World) {
    forall id <- v.incidents.items :: v.incidents.items[id].state.Resolved? ==>
      InState(w, id, Resolved) || Mitigated(v, id) || id in v.journal.recovered
  }

  ghost predicate Mitigated(v: World, id: Id) {
    && (exists c <- v.checks :: v.checks[c].incidentId == id && v.checks[c].improved)
    && SomePlanSucceeded(v, id)
  }

  ghost predicate SomePlanSucceeded(v: World, id: Id) { exists plan :: PlanSucceeded(v, id, plan) }

  /** The incident has commands of the plan, and every one of them is SUCCESS; rollbacks do not count. */
  ghost predicate PlanSucceeded(v: World, incident: Id, plan: int) {
    && (exists id <- v.actions.byId :: OfPlan(v.actions.byId[id], incident, plan))
    && (forall id <- v.actions.byId :: OfPlan(v.actions.byId[id], incident, plan) ==> v.actions.byId[id].state == Success)
  }

  predicate OfPlan(a: ActionCommand, incident: Id, plan: int) {
    && a.incidentId == incident && a.planVersion == plan
    && (a.commandType.QodPlan? || a.commandType.GeofencePlan? || a.commandType.SliceAttachPlan?)
  }

  lemma SucceededExactly(v: World, incident: Id, plan: int)
    ensures AllPlanActionsSucceeded(v, incident, plan) <==> PlanSucceeded(v, incident, plan)
  {}

  /** A command that is now SUCCESS or ROLLED_BACK was so before, or its evidence is in the journal. */
  ghost predicate EndsEarned(w: World, v: World) {
    forall id <- v.actions.byId ::
      && (v.actions.byId[id].state.Success? ==>
          id in v.journal.improved || (id in w.actions.byId && w.actions.byId[id].state.Success?))
      && (v.actions.byId[id].state.RolledBack? ==>
          id in v.journal.undone || (id in w.actions.byId && w.actions.byId[id].state.RolledBack?))
  }

  lemma KeepsTrans(u: World, v: World, w: World)
    requires Keeps(u, v) && Keeps(v, w)
    ensures Keeps(u, w)
  {
    forall i | |u.journal.calls| <= i < |w.journal.calls|
      ensures w.journal.calls[i].RollbackCall?
    {
      assert i < |v.journal.calls| ==> v.journal.calls[i] == w.journal.calls[i];
    }
  }

  /** Writes outside the ledger, the journal, the commands and the incidents, and no improvement among them. */
  lemma AsideKeeps(w: World, v: World)
    requires v.ledger == w.ledger && v.journal == w.journal && v.actions == w.actions && v.incidents == w.incidents
    requires NoNewProof(w, v)
    ensures Keeps(w, v)
  {}

  lemma UpdateKeeps(w: World, a: ActionCommand, state: ActionState, rid: Option<Id>, now: int)
    requires !state.Ready? && (state.Success? ==> a.commandId in w.journal.improved)
    requires state.RolledBack? ==> a.commandId in w.journal.undone
    ensures Keeps(w, UpdateAction(w, a, state, rid, now).world)
  {
    var v := UpdateAction(w, a, state, rid, now).world;
    AsideKeeps(w, w);
    if v != w {
      UpdatedIs(w, a, state, rid, now);
      WrittenKeeps(w, v, a.commandId);
    }
  }

  lemma UpdatedIs(w: World, a: ActionCommand, state: ActionState, rid: Option<Id>, now: int)
    ensures var v := UpdateAction(w, a, state, rid, now).world;
            v == w
            || (a.commandId in w.actions.byId && v == w.(actions := v.actions) && v.actions.byKey == w.actions.byKey
                && a.commandId in v.actions.byId && v.actions.byId[a.commandId].commandId == a.commandId
                && v.actions.byId == w.actions.byId[a.commandId := v.actions.byId[a.commandId]]
                && v.actions.byId[a.commandId].state == state)
  {}

  /** One stored command changed, and its new state has its evidence. */
  lemma WrittenKeeps(w: World, v: World, id: Id)
    requires id in w.actions.byId && id in v.actions.byId && v == w.(actions := v.actions) && v.actions.byKey == w.actions.byKey
    requires v.actions.byId == w.actions.byId[id := v.actions.byId[id]] && v.actions.byId[id].commandId == id
    requires var state := v.actions.byId[id].state;
             && !state.Ready? && (state.Success? ==> id in w.journal.improved) && (state.RolledBack? ==> id in w.journal.undone)
    ensures Keeps(w, v)
  {}

  lemma MoveKeeps(w: World, id: Id, from: IncidentState, to: IncidentState, now: int)
    requires CanMove(from, to) && !to.Resolved?
    ensures Keeps(w, MoveIncidentFrom(w, id, from, to, now))
  {}

  lemma WriteKeeps(w: World, id: Id, v: Option<VerificationState>, o: Option<IncidentOutcome>, r: Option<RecoveryState>,
                   now: int)
    ensures Keeps(w, WriteIncident(w, id, v, o, r, now).world)
  {}

  lemma SaveRecoveryKeeps(w: World, id: Id, state: RecoveryState, now: int)
    ensures Keeps(w, SaveRecovery(w, id, state, now).world)
  {}

  lemma SettleKeeps(w: World, a: ActionCommand, state: ActionState, status: OutboxRepository.ExecutionStatus, now: int)
    requires !state.Ready? && (state.Success? ==> a.commandId in w.journal.improved)
    requires state.RolledBack? ==> a.commandId in w.journal.undone
    ensures Keeps(w, Settle(w, a, state, status, now).world)
  {
    var r := UpdateAction(w, a, state, None, now);
    UpdateKeeps(w, a, state, None, now);
    if r.Ok? {
      AsideKeeps(r.world, AppendOutbox(r.world, r.value, status, now).world);
      KeepsTrans(w, r.world, AppendOutbox(r.world, r.value, status, now).world);
    }
  }

  lemma KeepsIsEarns(w: World, v: World)
    requires Keeps(w, v)
    ensures Earns(w, v)
  {}

  lemma KeepsEarns(u: World, v: World, w: World)
    requires Keeps(u, v) && Earns(v, w)
    ensures Earns(u, w)
  {
    forall i | |u.journal.calls| <= i < |w.journal.calls|
      ensures w.journal.calls[i].RollbackCall?
    {
      assert i < |v.journal.calls| ==> v.journal.calls[i] == w.journal.calls[i];
    }
  }

  /** A move of the incident, then a row in the outbox. */
  lemma MoveAndReportKeeps(w: World, id: Id, from: IncidentState, to: IncidentState, a: ActionCommand,
                           status: OutboxRepository.ExecutionStatus, now: int)
    requires CanMove(from, to) && !to.Resolved?
    ensures Keeps(w, AppendOutbox(MoveIncidentFrom(w, id, from, to, now), a, status, now).world)
  {
    var v := MoveIncidentFrom(w, id, from, to, now);
    MoveKeeps(w, id, from, to, now);
    AsideKeeps(v, AppendOutbox(v, a, status, now).world);
    KeepsTrans(w, v, AppendOutbox(v, a, status, now).world);
  }

  lemma PersistBlockKeeps(w: World, a: ActionCommand, now: int)
    ensures Keeps(w, PersistBlock(w, a, now).world)
  {
    var current := if a.commandId in w.actions.byId then w.actions.byId[a.commandId] else a;
    var r := UpdateAction(w, current, ActionState.Failed, None, now);
    if !current.state.Ready? {
      MoveAndReportKeeps(w, a.incidentId, Approved, Blocked, current, OutboxRepository.BlockedRow, now);
    } else {
      UpdateKeeps(w, current, ActionState.Failed, None, now);
      if r.Ok? {
        MoveAndReportKeeps(r.world, a.incidentId, Approved, Blocked, r.value, OutboxRepository.BlockedRow, now);
        KeepsTrans(w, r.world, PersistBlock(w, a, now).world);
      }
    }
  }

  lemma BeginVerifyKeeps(w: World, a: ActionCommand, now: int)
    ensures Keeps(w, BeginVerify(w, a, now).world)
  {
    MoveKeeps(w, a.incidentId, Mitigating, Verifying, now);
  }

  lemma AfterExecuteKeeps(w: World, sent: ActionCommand, answer: ProviderAnswer, now: int, fail: Option<Failpoint>)
    ensures Keeps(w, AfterExecute(w, sent, answer, now, fail).world)
  {
    if answer.Ambiguous? || fail == Some(AfterProviderBeforeResult) {
      SettleKeeps(w, sent, OutcomeUnknown, OutboxRepository.OutcomeUnknownRow, now);
    } else if answer.Rejected? {
      var r := UpdateAction(w, sent, ActionState.Failed, None, now);
      UpdateKeeps(w, sent, ActionState.Failed, None, now);
      if r.Ok? {
        var v := AfterExecute(w, sent, answer, now, fail).world;
        AsideKeeps(r.world, v);
        KeepsTrans(w, r.world, v);
      }
    } else {
      var r := UpdateAction(w, sent, Acknowledged, answer.resource, now);
      UpdateKeeps(w, sent, Acknowledged, answer.resource, now);
      if r.Ok? {
        BeginVerifyKeeps(r.world, r.value, now);
        KeepsTrans(w, r.world, BeginVerify(r.world, r.value, now).world);
      }
    }
  }

  lemma AfterReconcileKeeps(w: World, a: ActionCommand, answer: ReconcileAnswer, now: int)
    ensures Keeps(w, AfterReconcile(w, a, answer, now).world)
  {
    match answer
    case Present(resource) =>
      var r := UpdateAction(w, a, Acknowledged, resource.Or(a.providerResourceId), now);
      UpdateKeeps(w, a, Acknowledged, resource.Or(a.providerResourceId), now);
      if r.Ok? {
        BeginVerifyKeeps(r.world, r.value, now);
        KeepsTrans(w, r.world, BeginVerify(r.world, r.value, now).world);
      }
    case Absent => SettleKeeps(w, a, ActionState.Failed, OutboxRepository.ProviderFailedRow, now);
    case Unknown =>
      SettleKeeps(w, a, ReconciliationRequired, OutboxRepository.OutcomeUnknownRow, now);
      AsideKeeps(w, AppendOutbox(w, a, OutboxRepository.OutcomeUnknownRow, now).world);
  }

  lemma BeginReconcileKeeps(w: World, a: ActionCommand, now: int)
    ensures Keeps(w, BeginReconcile(w, a, now).world)
  {
    UpdateKeeps(w, a, OutcomeUnknown, None, now);
    AsideKeeps(w, w);
  }

  // ---------------------------------------------------------------- rollback

  lemma CreateKeeps(w: World, c: ActionCommand)
    requires w.actions.Filed() && c.commandId !in w.actions.byId && !c.state.Success? && !c.state.RolledBack?
    ensures Keeps(w, w.(actions := w.actions.CreateOrGet(c).0))
  {}

  /** The claimed half of `_rollback`. */
  lemma ClaimedRollbackKeeps(w: World, a: ActionCommand, sent: ActionCommand, now: int, fail: Option<Failpoint>)
    ensures Keeps(w, ClaimedRollback(w, a, sent, now, fail).world)
  {
    var r := SaveRecovery(w, a.incidentId, Releasing, now);
    SaveRecoveryKeeps(w, a.incidentId, Releasing, now);
    if r.Ok? && fail != Some(AfterRollbackSentBeforeProvider) {
      var v := ClaimedRollback(w, a, sent, now, fail).world;
      if OwnershipCurrent(r.world, a, now) {
        assert Keeps(r.world, v);
      } else {
        SettleKeeps(r.world, sent, OutcomeUnknown, OutboxRepository.OutcomeUnknownRow, now);
      }
      KeepsTrans(w, r.world, v);
    }
  }

  lemma RefuseRollbackKeeps(w: World, a: ActionCommand, now: int)
    ensures Keeps(w, RefuseRollback(w, a, now).world)
  {
    var r := SaveRecovery(w, a.incidentId, RecoveryState.Failed, now);
    SaveRecoveryKeeps(w, a.incidentId, RecoveryState.Failed, now);
    if r.Ok? {
      MoveAndReportKeeps(r.world, a.incidentId, Verifying, Escalated, a, OutboxRepository.RecoveryRequiredRow, now);
      KeepsTrans(w, r.world, RefuseRollback(w, a, now).world);
    }
  }

  lemma UndertakeKeeps(w: World, a: ActionCommand, r: ActionCommand, now: int, fail: Option<Failpoint>)
    ensures Keeps(w, Undertake(w, a, r, now, fail).world)
  {
    if r.state.Sent? {
      UpdateKeeps(w, r, OutcomeUnknown, None, now);
    } else if !r.state.Ready? {
      AsideKeeps(w, w);
    } else {
      var u := UpdateAction(w, r, ActionState.Sent, None, now);
      UpdateKeeps(w, r, ActionState.Sent, None, now);
      if u.Ok? {
        ClaimedRollbackKeeps(u.world, a, u.value, now, fail);
        KeepsTrans(w, u.world, ClaimedRollback(u.world, a, u.value, now, fail).world);
      }
    }
  }

  lemma BeginRollbackKeeps(w: World, a: ActionCommand, s: Settings, cap: Capability, freshId: Id, now: int,
                           fail: Option<Failpoint>)
    requires w.actions.Filed() && freshId !in w.actions.byId
    ensures Keeps(w, BeginRollback(w, a, s, cap, freshId, now, fail).world)
  {
    var v := BeginRollback(w, a, s, cap, freshId, now, fail).world;
    if !ModeAllows(s) || v == w {
      AsideKeeps(w, v);
    } else if !cap.rollback || a.providerResourceId.None? {
      RefuseRollbackKeeps(w, a, now);
    } else {
      var (store, r) := w.actions.CreateOrGet(RollbackCommand(a, freshId, now));
      CreateKeeps(w, RollbackCommand(a, freshId, now));
      UndertakeKeeps(w.(actions := store), a, r, now, fail);
      KeepsTrans(w, w.(actions := store), v);
    }
  }

  lemma AfterRollbackKeeps(w: World, a: ActionCommand, sent: ActionCommand, answer: ProviderAnswer, explicit: bool,
                           now: int, fail: Option<Failpoint>)
    ensures Keeps(w, AfterRollback(w, a, sent, answer, explicit, now, fail).world)
  {
    var v := AfterRollback(w, a, sent, answer, explicit, now, fail).world;
    if answer.Ambiguous? || fail == Some(AfterRollbackProviderBeforeResult) {
      var u := UpdateAction(w, sent, OutcomeUnknown, None, now);
      UpdateKeeps(w, sent, OutcomeUnknown, None, now);
      if u.Ok? {
        var m := MoveIncidentFrom(u.world, a.incidentId, Verifying, Recovering, now);
        MoveKeeps(u.world, a.incidentId, Verifying, Recovering, now);
        KeepsTrans(w, u.world, m);
        var r := SaveRecovery(m, a.incidentId, Partial, now).world;
        SaveRecoveryKeeps(m, a.incidentId, Partial, now);
        KeepsTrans(w, m, r);
        AsideKeeps(r, v);
        KeepsTrans(w, r, v);
      }
    } else if answer.Rejected? {
      var u := UpdateAction(w, sent, ActionState.Failed, None, now);
      UpdateKeeps(w, sent, ActionState.Failed, None, now);
      if u.Ok? && explicit {
        SaveRecoveryKeeps(u.world, a.incidentId, RecoveryState.Failed, now);
        KeepsTrans(w, u.world, v);
      }
    } else {
      UpdateKeeps(w, sent, Acknowledged, None, now);
    }
  }

  lemma UnverifiedRollbackKeeps(w: World, a: ActionCommand, accepted: ActionCommand, now: int)
    ensures Keeps(w, AfterVerifyRollback(w, a, accepted, false, now).world)
  {
    var w1 := MoveIncidentFrom(w, a.incidentId, Verifying, Recovering, now);
    MoveKeeps(w, a.incidentId, Verifying, Recovering, now);
    var v := AfterVerifyRollback(w, a, accepted, false, now).world;
    var u := UpdateAction(w1, accepted, ReconciliationRequired, None, now);
    UpdateKeeps(w1, accepted, ReconciliationRequired, None, now);
    KeepsTrans(w, w1, u.world);
    if u.Ok? {
      var r := SaveRecovery(u.world, a.incidentId, Partial, now).world;
      SaveRecoveryKeeps(u.world, a.incidentId, Partial, now);
      KeepsTrans(w, u.world, r);
      AsideKeeps(r, v);
      KeepsTrans(w, r, v);
    }
  }

  /** The journal once the rollback of `a` is verified. */
  function Undone(w: World, a: ActionCommand, accepted: ActionCommand): World {
    w.(journal := w.journal.(undone := w.journal.undone + {a.commandId, accepted.commandId},
                             recovered := w.journal.recovered + {a.incidentId}))
  }

  lemma AfterVerifyRollbackEarns(w: World, a: ActionCommand, accepted: ActionCommand, now: int)
    requires w.actions.Filed()
    ensures Earns(Undone(w, a, accepted), AfterVerifyRollback(w, a, accepted, true, now).world)
  {
    var w0 := Undone(w, a, accepted);
    var w1 := MoveIncidentFrom(w0, a.incidentId, Verifying, Recovering, now);
    MoveKeeps(w0, a.incidentId, Verifying, Recovering, now);
    assert w1 == Undone(MoveIncidentFrom(w, a.incidentId, Verifying, Recovering, now), a, accepted);
    UndoneEarns(w1, a, accepted, now);
    KeepsEarns(w0, w1, FinishRollback(w1, a, accepted, now).world);
  }

  lemma ResolveOneEarns(w: World, v: World, id: Id)
    requires OnlyIncident(w, v.(leases := w.leases), id)
    requires Mitigated(v, id) || id in w.journal.recovered
    ensures Earns(w, v)
  {}

  /** The writes after a verified rollback. */
  lemma UndoneEarns(w: World, a: ActionCommand, accepted: ActionCommand, now: int)
    requires w.actions.Filed() && a.commandId in w.journal.undone && accepted.commandId in w.journal.undone
             && a.incidentId in w.journal.recovered
    ensures Earns(w, FinishRollback(w, a, accepted, now).world)
  {
    var u := UpdateAction(w, accepted, RolledBack, None, now);
    UpdateKeeps(w, accepted, RolledBack, None, now);
    if u.Ok? {
      var o := UndoOriginal(u.world, a, now);
      UndoOriginalKeeps(u.world, a, now);
      KeepsTrans(w, u.world, o.world);
      KeepsIsEarns(w, o.world);
      if o.Ok? { RecoveredEarns(w, o.world, a, u.value, now, FinishRollback(w, a, accepted, now).world); }
    }
  }

  /** The recovery record, the incident and the row of a verified rollback. */
  lemma RecoveredEarns(w: World, o: World, a: ActionCommand, completed: ActionCommand, now: int, v: World)
    requires Keeps(w, o) && a.incidentId in w.journal.recovered
    requires var r := SaveRecovery(o, a.incidentId, RecoveryState.Complete, now);
             v == if r.Raised? then r.world
                  else AppendOutbox(ResolveRolledBack(r.world, a.incidentId, now), completed, OutboxRepository.RolledBackRow, now).world
    ensures Earns(w, v)
  {
    var r := SaveRecovery(o, a.incidentId, RecoveryState.Complete, now);
    SaveRecoveryKeeps(o, a.incidentId, RecoveryState.Complete, now);
    KeepsTrans(w, o, r.world);
    KeepsIsEarns(w, r.world);
    if r.Ok? {
      var m := ResolveRolledBack(r.world, a.incidentId, now);
      ResolveOneEarns(r.world, m, a.incidentId);
      KeepsEarns(w, r.world, m);
      EarnsReported(w, m, v);
    }
  }

  lemma UndoOriginalKeeps(w: World, a: ActionCommand, now: int)
    requires a.commandId in w.journal.undone && w.actions.Filed()
    ensures Keeps(w, UndoOriginal(w, a, now).world)
  {
    AsideKeeps(w, w);
    if a.commandId in w.actions.byId {
      UpdateKeeps(w, w.actions.byId[a.commandId], RolledBack, None, now);
    }
  }

  // ---------------------------------------------------------------- verification


  /** A row in the outbox takes nothing back. */
  lemma EarnsReported(w: World, v: World, u: World)
    requires Earns(w, v) && u == v.(outbox := u.outbox)
    ensures Earns(w, u)
  {
    forall id | id in u.incidents.items && Mitigated(v, id)
      ensures Mitigated(u, id)
    {
      var plan :| PlanSucceeded(v, id, plan);
      assert PlanSucceeded(u, id, plan);
    }
  }

  lemma MaybeResolveEarns(w: World, incident: Id, plan: int, now: int)
    ensures Earns(w, MaybeResolve(w, incident, plan, now))
  {
    var v := MaybeResolve(w, incident, plan, now);
    if AllPlanActionsSucceeded(w, incident, plan) && SomeImproved(w, incident) {
      SucceededExactly(v, incident, plan);
      ResolveOneEarns(w, v, incident);
    } else {
      AsideKeeps(w, w);
      assert Earns(w, w);
    }
  }

  /** The successful end of a verification: SUCCESS, then the resolution gate. */
  lemma SucceedEarns(w: World, a: ActionCommand, incident: Id, plan: int, now: int)
    requires a.commandId in w.journal.improved
    ensures var u := UpdateAction(w, a, Success, None, now);
            Earns(w, u.world) && Earns(w, MaybeResolve(u.world, incident, plan, now))
  {
    var u := UpdateAction(w, a, Success, None, now);
    UpdateKeeps(w, a, Success, None, now);
    MaybeResolveEarns(u.world, incident, plan, now);
    KeepsEarns(w, u.world, MaybeResolve(u.world, incident, plan, now));
  }

  lemma PublishEarns(w: World, a: ActionCommand, state: VerificationState, s: Settings, cap: Capability, freshId: Id,
                     now: int, fail: Option<Failpoint>)
    requires w.actions.Filed() && freshId !in w.actions.byId && (state.Improved? ==> a.commandId in w.journal.improved)
    ensures Earns(w, Publish(w, a, state, s, cap, freshId, now, fail).world)
  {
    var end := Publish(w, a, state, s, cap, freshId, now, fail).world;
    if state.Improved? {
      var u := UpdateAction(w, a, Success, None, now);
      SucceedEarns(w, a, a.incidentId, a.planVersion, now);
      if u.Ok? { EarnsReported(w, MaybeResolve(u.world, a.incidentId, a.planVersion, now), end); }
    } else if state.Unchanged? || state.Degraded? {
      var u := UpdateAction(w, a, RollbackRequired, None, now);
      UpdateKeeps(w, a, RollbackRequired, None, now);
      if u.Ok? {
        BeginRollbackKeeps(u.world, u.value, s, cap, freshId, now, fail);
        KeepsTrans(w, u.world, end);
      }
    } else {
      SettleKeeps(w, a, ReconciliationRequired, OutboxRepository.VerificationUnavailableRow, now);
    }
  }

  /** The world with what a verification brings on record: that it proves the mitigation, and that it shows an
      improvement. */
  function Proven(w: World, id: CheckId, incident: Id, proves: bool, improved: bool, now: int): World {
    w.(checks := if improved then w.checks[id := Check(incident, Improved, true, now)] else w.checks,
       journal := if proves then w.journal.(improved := w.journal.improved + {id.commandId}) else w.journal)
  }

  /** A record that proves no more than it should. */
  lemma SavedEarns(w: World, id: CheckId, incident: Id, v: VerifyAnswer, state: VerificationState, now: int, u: World)
    requires Earns(SaveCheck(w, id, incident, v, state, now), u)
    ensures Earns(Proven(w, id, incident, state.Improved?, v.VerifiedImproved?, now), u)
  {}

  /** A present resource proves the mitigation to the executor, but only an improvement shows one. */
  lemma AfterVerifyEarns(w: World, a: ActionCommand, v: VerifyAnswer, s: Settings, cap: Capability, freshId: Id,
                         now: int, fail: Option<Failpoint>)
    requires w.actions.Filed() && freshId !in w.actions.byId
    ensures Earns(Proven(w, Verify(a.commandId), a.incidentId, v.VerifiedImproved? || v.VerifiedResource?, v.VerifiedImproved?, now),
                  AfterVerify(w, a, v, s, cap, freshId, now, fail).world)
  {
    VerifiedEarns(w, a, v, s, cap, freshId, now, fail);
    SavedEarns(w, Verify(a.commandId), a.incidentId, v, VerificationOf(v), now, AfterVerify(w, a, v, s, cap, freshId, now, fail).world);
  }

  lemma VerifiedEarns(w: World, a: ActionCommand, v: VerifyAnswer, s: Settings, cap: Capability, freshId: Id, now: int,
                      fail: Option<Failpoint>)
    requires w.actions.Filed() && freshId !in w.actions.byId
    ensures Earns(SaveCheck(w, Verify(a.commandId), a.incidentId, v, VerificationOf(v), now),
                  AfterVerify(w, a, v, s, cap, freshId, now, fail).world)
  {
    var state := VerificationOf(v);
    var w1 := SaveCheck(w, Verify(a.commandId), a.incidentId, v, state, now);
    var w2 := WriteIncident(w1, a.incidentId, Some(state), None, None, now);
    WriteKeeps(w1, a.incidentId, Some(state), None, None, now);
    KeepsIsEarns(w1, w2.world);
    if w2.Ok? && fail != Some(AfterVerificationBeforePublication) {
      PublishEarns(w2.world, a, state, s, cap, freshId, now, fail);
      KeepsEarns(w1, w2.world, AfterVerify(w, a, v, s, cap, freshId, now, fail).world);
    }
  }

  // ---------------------------------------------------------------- the provider call

  /** Everything that stands behind `adapter.execute` of command `id`, in the stored world of the call. */
  ghost predicate Authorized(v: World, id: Id, s: Settings, t: Instants) {
    && id in v.actions.byId
    && var c := v.actions.byId[id];
    && c.commandId == id && c.state.Sent? && Writable(s)
    && InOrder(v, c, s, t.final) && !InState(v, c.incidentId, Approved) && Leased(v, c, t.owned)
  }

  /** A segment that ends in `adapter.execute` of command `id`, the one charge it may have made included. */
  ghost predicate Calls(w: World, v: World, id: Id, s: Settings, t: Instants) {
    && Authorized(v, id, s, t)
    && id in w.actions.byId && w.actions.byId[id].state.Ready?
    && CallsAndPays(w, v, v.actions.byId[id], s)
    && Accounted(w, v)
    && (forall x <- v.incidents.items :: v.incidents.items[x].state.Resolved? ==> InState(w, x, Resolved))
  }

  /** One call for `c`, at its price. */
  ghost predicate CallsAndPays(w: World, v: World, c: ActionCommand, s: Settings) {
    && |w.journal.calls| < |v.journal.calls|
    && var call := v.journal.calls[|w.journal.calls|];
    && v.journal == w.journal.(calls := w.journal.calls + [call])
    && call.ExecuteCall? && call.commandId == c.commandId && Priced(c, call.cents)
    && Charged(w.ledger, v.ledger, c, call.cents, s)
  }

  /** What costs something is charged once, and stays below the ceiling. */
  ghost predicate Charged(before: seq<Charge>, after: seq<Charge>, c: ActionCommand, cents: nat, s: Settings) {
    if cents == 0 || Charges(before, c) then after == before
    else
      && after == before + [Charge(c.commandId, c.incidentId, cents)]
      && (forall x <- before :: x.commandId != c.commandId)
      && Total(before, c.incidentId) + cents <= s.ceilingCents
  }

  lemma KeepsCalls(u: World, v: World, w: World, id: Id, s: Settings, t: Instants)
    requires Keeps(u, v) && Calls(v, w, id, s, t) && v.journal == u.journal && id in u.actions.byId
    ensures Calls(u, w, id, s, t)
  {}

  lemma RecordCostCharges(w: World, a: ActionCommand, s: Settings)
    requires Affordable(w.ledger, a, s)
    ensures var r := RecordCost(w, a);
            if r.Raised? then r.world == w
            else r.world == w.(ledger := r.world.ledger) && Charged(w.ledger, r.world.ledger, a, Cost(a), s)
  {
    AffordableExactly(w.ledger, a, s);
  }

  /** From SENT on: the provider is called with everything checked, or the command leaves SENT. */
  lemma CallProviderCalls(w: World, sent: ActionCommand, s: Settings, t: Instants)
    requires sent.commandId in w.actions.byId && w.actions.byId[sent.commandId] == sent && sent.state.Sent? && ModeAllows(s)
    requires !InState(w, sent.incidentId, Approved)
    ensures var r := CallProvider(w, sent, s, t);
            if Awaits(r) then r == Ok(r.world, AwaitExecute(sent)) && CallsFromSent(w, r.world, sent, s, t) else Keeps(w, r.world)
  {
    if !OwnershipCurrent(w, sent, t.owned) {
      SettleKeeps(w, sent, OutcomeUnknown, OutboxRepository.OutcomeUnknownRow, t.owned);
    } else if sent.incidentId !in w.incidents.items || !Eligible(w, sent, s, t.final) {
      SettleKeeps(w, sent, ActionState.Failed, OutboxRepository.BlockedRow, t.final);
    } else {
      EligibleExactly(w, sent, s, t.final);
      ModeExactly(s);
      ChargeAndCallCalls(w, sent, s, t);
    }
  }

  lemma ChargeAndCallCalls(w: World, sent: ActionCommand, s: Settings, t: Instants)
    requires sent.commandId in w.actions.byId && w.actions.byId[sent.commandId] == sent && sent.state.Sent? && Writable(s)
    requires !InState(w, sent.incidentId, Approved) && Affordable(w.ledger, sent, s)
    requires OwnershipCurrent(w, sent, t.owned) && InOrder(w, sent, s, t.final)
    ensures var r := ChargeAndCall(w, sent, t.final);
            if Awaits(r) then r == Ok(r.world, AwaitExecute(sent)) && CallsFromSent(w, r.world, sent, s, t) else Keeps(w, r.world)
  {
    var c := RecordCost(w, sent);
    RecordCostCharges(w, sent, s);
    if c.Raised? {
      SettleKeeps(w, sent, ActionState.Failed, OutboxRepository.BlockedRow, t.final);
      assert ChargeAndCall(w, sent, t.final) == Settle(c.world, sent, ActionState.Failed, OutboxRepository.BlockedRow, t.final);
    } else {
      ChargedCalls(w, sent, s, t, c.world);
    }
  }

  /** A charge, and then the call. */
  lemma ChargedCalls(w: World, sent: ActionCommand, s: Settings, t: Instants, w1: World)
    requires sent.commandId in w.actions.byId && w.actions.byId[sent.commandId] == sent && sent.state.Sent? && Writable(s)
    requires !InState(w, sent.incidentId, Approved) && Affordable(w.ledger, sent, s)
    requires OwnershipCurrent(w, sent, t.owned) && InOrder(w, sent, s, t.final)
    requires RecordCost(w, sent) == Ok(w1, ()) && w1 == w.(ledger := w1.ledger)
    requires Charged(w.ledger, w1.ledger, sent, Cost(sent), s)
    ensures var r := ChargeAndCall(w, sent, t.final);
            r == Ok(r.world, AwaitExecute(sent)) && CallsFromSent(w, r.world, sent, s, t)
  {
    AffordableExactly(w.ledger, sent, s);
    StillInOrder(w, ChargeAndCall(w, sent, t.final).world, sent, s, t.final);
  }

  /** What is in order does not depend on the ledger and the journal. */
  lemma StillInOrder(w: World, v: World, a: ActionCommand, s: Settings, now: int)
    requires InOrder(w, a, s, now) && v == w.(ledger := v.ledger, journal := v.journal)
    ensures InOrder(v, a, s, now)
  {
    assert a.pre.trustedDispatchRequired ==> Trusted(v, a.incidentId, s.trustTtl, now);
  }

  /** `Calls`, for the half of the segment that begins with the command already SENT. */
  ghost predicate CallsFromSent(w: World, v: World, sent: ActionCommand, s: Settings, t: Instants) {
    && Authorized(v, sent.commandId, s, t) && v.actions == w.actions && v.incidents == w.incidents && v.checks == w.checks
    && CallsAndPays(w, v, sent, s)
  }

  lemma KeepsThenCalls(u: World, w: World, v: World, sent: ActionCommand, s: Settings, t: Instants)
    requires Keeps(u, w) && CallsFromSent(w, v, sent, s, t) && w.journal == u.journal
    requires sent.commandId in u.actions.byId && u.actions.byId[sent.commandId].state.Ready?
    requires sent.commandId in w.actions.byId && w.actions.byId[sent.commandId] == sent
    ensures Calls(u, v, sent.commandId, s, t)
  {}

  /** The claim and what follows it. */
  lemma ClaimCalls(w: World, a: ActionCommand, s: Settings, t: Instants)
    requires a.commandId in w.actions.byId && w.actions.byId[a.commandId] == a && a.state.Ready? && ModeAllows(s)
    ensures var w2 := MoveIncidentFrom(w, a.incidentId, Approved, Mitigating, t.rechecked);
            var u := UpdateAction(w2, a, ActionState.Sent, None, t.rechecked);
            Keeps(w, u.world) && (u.Ok? ==> KeepsOrCalls(w, CallProvider(u.world, u.value, s, t), a.commandId, s, t))
  {
    var w2 := MoveIncidentFrom(w, a.incidentId, Approved, Mitigating, t.rechecked);
    MoveKeeps(w, a.incidentId, Approved, Mitigating, t.rechecked);
    var u := UpdateAction(w2, a, ActionState.Sent, None, t.rechecked);
    UpdateKeeps(w2, a, ActionState.Sent, None, t.rechecked);
    KeepsTrans(w, w2, u.world);
    if u.Ok? {
      CallProviderCalls(u.world, u.value, s, t);
      var v := CallProvider(u.world, u.value, s, t).world;
      if Awaits(CallProvider(u.world, u.value, s, t)) {
        KeepsThenCalls(w, u.world, v, u.value, s, t);
      } else {
        KeepsTrans(w, u.world, v);
      }
    }
  }

  /** A block executes nothing. */
  lemma BlockedCalls(w: World, a: ActionCommand, now: int, id: Id, s: Settings, t: Instants)
    ensures KeepsOrCalls(w, PersistBlock(w, a, now), id, s, t)
  {
    PersistBlockKeeps(w, a, now);
    BlockExecutesNothing(w, a, now);
  }

  lemma BlockExecutesNothing(w: World, a: ActionCommand, now: int)
    ensures !Awaits(PersistBlock(w, a, now))
  {}

  /** The rest of `execute_ready_action` once the lease is held. */
  lemma TakeUpCalls(w: World, a: ActionCommand, s: Settings, t: Instants, fail: Option<Failpoint>)
    requires a.commandId in w.actions.byId && w.actions.byId[a.commandId] == a && a.state.Ready? && ModeAllows(s)
    requires a.incidentId in w.incidents.items
    ensures KeepsOrCalls(w, TakeUp(w, a, s, t, fail), a.commandId, s, t)
  {
    if Eligible(w, a, s, t.rechecked) {
      ClaimCalls(w, a, s, t);
    } else {
      BlockedCalls(w, a, t.rechecked, a.commandId, s, t);
      assert TakeUp(w, a, s, t, fail) == PersistBlock(w, a, t.rechecked);
    }
  }

  lemma KeepsOrCallsAfter(w: World, w1: World, r: Eff<Next>, id: Id, s: Settings, t: Instants)
    requires Keeps(w, w1) && w1.journal == w.journal && id in w.actions.byId && KeepsOrCalls(w1, r, id, s, t)
    ensures KeepsOrCalls(w, r, id, s, t)
  {
    if Awaits(r) { KeepsCalls(w, w1, r.world, id, s, t); } else { KeepsTrans(w, w1, r.world); }
  }

  /** `execute_ready_action` calls the provider only with full authority, and otherwise keeps everything. */
  lemma StartReadyCalls(w: World, a: ActionCommand, s: Settings, cap: Capability, t: Instants, fail: Option<Failpoint>)
    requires a.commandId in w.actions.byId && w.actions.byId[a.commandId] == a && a.state.Ready?
    ensures KeepsOrCalls(w, StartReady(w, a, s, cap, t, fail), a.commandId, s, t)
  {
    if a.incidentId !in w.incidents.items || !Eligible(w, a, s, t.checked) || !ModeAllows(s) || !cap.mutation {
      BlockedCalls(w, a, t.checked, a.commandId, s, t);
    } else {
      OwnedCalls(w, a, s, t, fail);
    }
  }

  lemma OwnedCalls(w: World, a: ActionCommand, s: Settings, t: Instants, fail: Option<Failpoint>)
    requires a.commandId in w.actions.byId && w.actions.byId[a.commandId] == a && a.state.Ready? && ModeAllows(s)
    requires a.incidentId in w.incidents.items
    ensures KeepsOrCalls(w, Own(w, a, s, t, fail), a.commandId, s, t)
  {
    var leased := EnsureOwnership(w, a, t.leased);
    if fail == Some(BeforeOwnership) {
      AsideKeeps(w, w);
    } else if leased.None? {
      BlockedCalls(w, a, t.leased, a.commandId, s, t);
      assert Own(w, a, s, t, fail) == PersistBlock(w, a, t.leased);
    } else {
      AsideKeeps(w, leased.value);
      if fail != Some(AfterOwnershipBeforeSent) {
        TakeUpCalls(leased.value, a, s, t, fail);
        assert Own(w, a, s, t, fail) == TakeUp(leased.value, a, s, t, fail);
        KeepsOrCallsAfter(w, leased.value, TakeUp(leased.value, a, s, t, fail), a.commandId, s, t);
      }
    }
  }

  /** The segment ended in `adapter.execute`. */
  predicate Awaits(r: Eff<Next>) { r.Ok? && r.value.AwaitExecute? }

  /** It called the provider, with full authority; or else it neither charged, called nor resolved anything. */
  ghost predicate KeepsOrCalls(w: World, r: Eff<Next>, id: Id, s: Settings, t: Instants) {
    if Awaits(r) then Calls(w, r.world, id, s, t) else Keeps(w, r.world)
  }

  lemma ClaimExecutesNothing(w: World, a: ActionCommand, sent: ActionCommand, now: int, fail: Option<Failpoint>)
    ensures !Awaits(ClaimedRollback(w, a, sent, now, fail))
  {}

  lemma UndertakingExecutesNothing(w: World, a: ActionCommand, r: ActionCommand, now: int, fail: Option<Failpoint>)
    ensures !Awaits(Undertake(w, a, r, now, fail))
  {
    var u := UpdateAction(w, r, ActionState.Sent, None, now);
    if u.Ok? { ClaimExecutesNothing(u.world, a, u.value, now, fail); }
  }

  lemma RefusalExecutesNothing(w: World, a: ActionCommand, now: int)
    ensures !Awaits(RefuseRollback(w, a, now))
  {}

  lemma RollbackExecutesNothing(w: World, a: ActionCommand, s: Settings, cap: Capability, freshId: Id, now: int,
                                fail: Option<Failpoint>)
    requires w.actions.Filed()
    ensures !Awaits(BeginRollback(w, a, s, cap, freshId, now, fail))
  {
    RefusalExecutesNothing(w, a, now);
    if IsPlanType(a.commandType) {
      var (store, r) := w.actions.CreateOrGet(RollbackCommand(a, freshId, now));
      UndertakingExecutesNothing(w.(actions := store), a, r, now, fail);
    }
  }

  lemma KeepingIsKept(w: World, r: Eff<Next>, id: Id, s: Settings, t: Instants)
    requires Keeps(w, r.world) && !Awaits(r)
    ensures KeepsOrCalls(w, r, id, s, t)
  {}

  lemma StartCalls(w: World, id: Id, s: Settings, cap: Capability, freshId: Id, t: Instants, fail: Option<Failpoint>)
    requires w.actions.Filed() && freshId !in w.actions.byId
    ensures KeepsOrCalls(w, Start(w, id, s, cap, freshId, t, fail), id, s, t)
  {
    AsideKeeps(w, w);
    if id in w.actions.byId {
      var a := w.actions.byId[id];
      match a.state
      case OutcomeUnknown => BeginReconcileKeeps(w, a, t.checked);
      case ReconciliationRequired => BeginReconcileKeeps(w, a, t.checked);
      case Acknowledged => BeginVerifyKeeps(w, a, t.checked);
      case RollbackRequired =>
        BeginRollbackKeeps(w, a, s, cap, freshId, t.checked, fail);
        RollbackExecutesNothing(w, a, s, cap, freshId, t.checked, fail);
        KeepingIsKept(w, BeginRollback(w, a, s, cap, freshId, t.checked, fail), id, s, t);
      case Ready => StartReadyCalls(w, a, s, cap, t, fail);
      case _ =>
    }
  }

  // ---------------------------------------------------------------- the reconciler

  lemma RewriteKeeps(w: World, id: Id, state: ActionState, rid: Option<Id>, now: int)
    requires w.actions.Filed() && !state.Ready? && !state.RolledBack? && (state.Success? ==> id in w.journal.improved)
    ensures Keeps(w, Rewrite(w, id, state, rid, now).world)
  {
    AsideKeeps(w, w);
    if id in w.actions.byId { UpdateKeeps(w, w.actions.byId[id], state, rid, now); }
  }

  lemma EscalateKeeps(w: World, incident: Id, now: int)
    ensures Keeps(w, EscalateIncident(w, incident, now))
  {
    var w1 := MoveIncidentFrom(w, incident, Approved, Mitigating, now);
    var w2 := MoveIncidentFrom(w1, incident, Mitigating, Verifying, now);
    MoveKeeps(w, incident, Approved, Mitigating, now);
    MoveKeeps(w1, incident, Mitigating, Verifying, now);
    MoveKeeps(w2, incident, Verifying, IncidentState.Escalated, now);
    KeepsTrans(w, w1, w2);
    KeepsTrans(w, w2, EscalateIncident(w, incident, now));
  }

  /** An escalation, then the fields that record why. */
  lemma EscalateAndWriteKeeps(w: World, incident: Id, v: Option<VerificationState>, o: IncidentOutcome, now: int)
    ensures Keeps(w, WriteIncident(EscalateIncident(w, incident, now), incident, v, Some(o), None, now).world)
  {
    EscalateKeeps(w, incident, now);
    WriteKeeps(EscalateIncident(w, incident, now), incident, v, Some(o), None, now);
    KeepsTrans(w, EscalateIncident(w, incident, now),
               WriteIncident(EscalateIncident(w, incident, now), incident, v, Some(o), None, now).world);
  }

  lemma SaveTerminalEscalationKeeps(w: World, a: ActionCommand, count: nat, now: int)
    ensures Keeps(w, SaveTerminalEscalation(w, a, count, now).world)
  {
    AsideKeeps(w, w);
    var w1 := SaveAttempt(w, a, count, ManualRequired, true, now);
    AsideKeeps(w, w1);
    EscalateAndWriteKeeps(w1, a.incidentId, Some(InsufficientEvidence), ManualReconciliationRequired, now);
    KeepsTrans(w, w1, WriteIncident(EscalateIncident(w1, a.incidentId, now), a.incidentId, Some(InsufficientEvidence),
                                    Some(ManualReconciliationRequired), None, now).world);
  }

  lemma ResourceGoneKeeps(w: World, a: ActionCommand, now: int)
    requires w.actions.Filed()
    ensures Keeps(w, ResourceGone(w, a, now).world)
  {
    var r := Rewrite(w, a.commandId, ActionState.Failed, None, now);
    RewriteKeeps(w, a.commandId, ActionState.Failed, None, now);
    if r.Ok? && a.incidentId in r.world.incidents.items { HandOverKeeps(w, r.world, a.incidentId, now); }
  }

  /** The incident of a vanished resource goes to an operator. */
  lemma HandOverKeeps(w: World, v: World, incident: Id, now: int)
    requires Keeps(w, v)
    ensures Keeps(w, WriteIncident(EscalateIncident(v, incident, now), incident, None, Some(RecoveryRequired), None, now).world)
  {
    EscalateAndWriteKeeps(v, incident, None, RecoveryRequired, now);
    KeepsTrans(w, v, WriteIncident(EscalateIncident(v, incident, now), incident, None, Some(RecoveryRequired), None, now).world);
  }

  lemma FollowKeeps(w: World, a: ActionCommand, current: ActionCommand, attempt: nat, outcome: ReadOutcome,
                    answer: ReadAnswer, now: int)
    requires w.actions.Filed() && (outcome.ProviderAvailable? ==> answer.Resource?)
    ensures Keeps(w, Follow(w, a, current, attempt, outcome, answer, now).world)
  {
    var v := Follow(w, a, current, attempt, outcome, answer, now).world;
    AsideKeeps(w, w);
    if outcome.ProviderAvailable? {
      RewriteKeeps(w, a.commandId, Acknowledged, answer.resource.Or(current.providerResourceId), now);
      assert v == w || v == Rewrite(w, a.commandId, Acknowledged, answer.resource.Or(current.providerResourceId), now).world;
    } else if outcome.ProviderNotFound? {
      ResourceGoneKeeps(w, a, now);
    } else {
      RewriteKeeps(w, a.commandId, ReconciliationRequired, None, now);
      assert v == w || v == Rewrite(w, a.commandId, ReconciliationRequired, None, now).world;
    }
  }

  lemma FinishReadKeeps(w: World, a: ActionCommand, attempt: nat, answer: ReadAnswer, now: int, crash: Crash)
    requires w.actions.Filed()
    ensures Keeps(w, FinishRead(w, a, attempt, answer, now, crash).world)
  {
    var w1 := SaveAttempt(w, a, attempt, Classify(a, answer), false, now);
    AsideKeeps(w, w);
    AsideKeeps(w, w1);
    if !crash.BeforePersist? && !crash.AfterPersist? {
      FollowKeeps(w1, a, if a.commandId in w1.actions.byId then w1.actions.byId[a.commandId] else a, attempt, Classify(a, answer), answer, now);
      KeepsTrans(w, w1, FinishRead(w, a, attempt, answer, now, crash).world);
    }
  }

  lemma ConcludeEarns(w: World, a: ActionCommand, state: VerificationState, now: int)
    requires w.actions.Filed() && (state.Improved? ==> a.commandId in w.journal.improved) && a.incidentId in w.incidents.items
    ensures Earns(w, Conclude(w, a, state, now).world)
  {
    AsideKeeps(w, w);
    var v := Conclude(w, a, state, now).world;
    if state.Improved? {
      if a.commandId in w.actions.byId {
        var c := w.actions.byId[a.commandId];
        SucceedEarns(w, c, c.incidentId, c.planVersion, now);
      }
    } else if state.Unchanged? || state.Degraded? {
      var r := Rewrite(w, a.commandId, RollbackRequired, None, now);
      RewriteKeeps(w, a.commandId, RollbackRequired, None, now);
      AsideKeeps(r.world, v);
      KeepsTrans(w, r.world, v);
    } else {
      RewriteKeeps(w, a.commandId, ReconciliationRequired, None, now);
    }
  }

  /** To the reconciler nothing but an improvement proves the mitigation. */
  lemma FinishReverifyEarns(w: World, a: ActionCommand, attempt: nat, v: VerifyAnswer, now: int, crash: Crash)
    requires w.actions.Filed()
    ensures Earns(Proven(w, Reverify(a.commandId, attempt), a.incidentId, v.VerifiedImproved?, v.VerifiedImproved?, now),
                  FinishReverify(w, a, attempt, v, now, crash).world)
  {
    ReverifiedEarns(w, a, attempt, v, now, crash);
    SavedEarns(w, Reverify(a.commandId, attempt), a.incidentId, v, ReverificationOf(v), now, FinishReverify(w, a, attempt, v, now, crash).world);
  }

  lemma ReverifiedEarns(w: World, a: ActionCommand, attempt: nat, v: VerifyAnswer, now: int, crash: Crash)
    requires w.actions.Filed()
    ensures Earns(SaveCheck(w, Reverify(a.commandId, attempt), a.incidentId, v, ReverificationOf(v), now),
                  FinishReverify(w, a, attempt, v, now, crash).world)
  {
    var state := ReverificationOf(v);
    var w1 := SaveCheck(w, Reverify(a.commandId, attempt), a.incidentId, v, state, now);
    AsideKeeps(w1, w1);
    var w2 := WriteIncident(w1, a.incidentId, Some(state), None, None, now);
    WriteKeeps(w1, a.incidentId, Some(state), None, None, now);
    KeepsIsEarns(w1, w1);
    KeepsIsEarns(w1, w2.world);
    if w2.Ok? && !crash.AfterReverify? {
      ConcludeEarns(w2.world, a, state, now);
      KeepsEarns(w1, w2.world, FinishReverify(w, a, attempt, v, now, crash).world);
    }
  }

  /** A verification that is not available proves nothing, and keeps everything. */
  lemma UnavailableEarns(w: World, w1: World, a: ActionCommand, attempt: nat, now: int, crash: Crash)
    requires w.actions.Filed() && w1 == w.(attempts := w1.attempts)
    ensures Earns(w, FinishReverify(w1, a, attempt, Unavailable, now, crash).world)
  {
    AsideKeeps(w, w1);
    FinishReverifyEarns(w1, a, attempt, Unavailable, now, crash);
    KeepsEarns(w, w1, FinishReverify(w1, a, attempt, Unavailable, now, crash).world);
  }

  lemma ReverifyAgainEarns(w: World, a: ActionCommand, count: nat, s: Settings, now: int, crash: Crash)
    requires w.actions.Filed()
    ensures Earns(w, Reverifying(w, a, count, s, now, crash).world)
  {
    var again := Unproven(w, a.commandId, count);
    var attempt := if again then count + 1 else count;
    var w1 := if again then SaveAttempt(w, a, attempt, ProviderAvailable, false, now) else w;
    if CanRead(a, s) {
      AsideKeeps(w, w1);
      KeepsIsEarns(w, w1);
    } else {
      UnavailableEarns(w, w1, a, attempt, now, crash);
    }
  }

  lemma ReverifyEarns(w: World, a: ActionCommand, count: nat, s: Settings, now: int, crash: Crash)
    requires w.actions.Filed()
    ensures Earns(w, BeginReverify(w, a, count, s, now, crash).world)
  {
    if Uncertain(a.state) {
      var r := Rewrite(w, a.commandId, Acknowledged, None, now);
      RewriteKeeps(w, a.commandId, Acknowledged, None, now);
      if r.Ok? {
        ReverifyAgainEarns(r.world, r.value, count, s, now, crash);
        KeepsEarns(w, r.world, BeginReverify(w, a, count, s, now, crash).world);
      }
    } else {
      ReverifyAgainEarns(w, a, count, s, now, crash);
    }
  }

  lemma ActEarns(w: World, a: ActionCommand, status: Status, count: nat, s: Settings, now: int, crash: Crash)
    requires w.actions.Filed()
    ensures Earns(w, Act(w, a, status, count, s, now, crash).world)
  {
    var v := Act(w, a, status, count, s, now, crash).world;
    match status
    case DeadlineReached =>
      SaveTerminalEscalationKeeps(w, a, count, now);
      KeepsIsEarns(w, v);
    case ReadyForReverification =>
      ReverifyEarns(w, a, count, s, now, crash);
    case Due =>
      AsideKeeps(w, w);
      FinishReadKeeps(w, a, count + 1, NoAnswer, now, if crash.BeforePersist? then NoCrash else crash);
      KeepsIsEarns(w, v);
    case _ =>
      AsideKeeps(w, w);
      KeepsIsEarns(w, w);
  }

  lemma BeginEarns(w: World, id: Id, s: Settings, rs: Retry, now: int, crash: Crash)
    requires w.actions.Filed()
    ensures Earns(w, Begin(w, id, s, rs, now, crash).world)
  {
    AsideKeeps(w, w);
    KeepsIsEarns(w, w);
    if id in w.actions.byId {
      var a := w.actions.byId[id];
      ActEarns(w, a, WorkStatus(w, a, rs, now), Count(Attempts(w, a.commandId)), s, now, crash);
    }
  }

  // ---------------------------------------------------------------- decisions

  lemma {:induction false} CreateAllKeeps(w: World, cmds: seq<ActionCommand>, incident: Id, plan: int)
    requires w.actions.Filed() && PlanCommands(w.actions, cmds, incident, plan)
    ensures Keeps(w, w.(actions := CreateAll(w.actions, cmds)))
    ensures forall id <- CreateAll(w.actions, cmds).byId :: id in w.actions.byId || exists k :: 0 <= k < |cmds| && cmds[k].commandId == id
  {
    if cmds == [] {
      AsideKeeps(w, w);
    } else {
      var n := |cmds| - 1;
      CreateAllKeeps(w, cmds[..n], incident, plan);
      var w1 := w.(actions := CreateAll(w.actions, cmds[..n]));
      assert cmds[n].commandId !in w1.actions.byId;
      CreateKeeps(w1, cmds[n]);
      KeepsTrans(w, w1, w1.(actions := w1.actions.CreateOrGet(cmds[n]).0));
    }
  }

  lemma AllowKeeps(w: World, v: Verdict, now: int)
    requires w.actions.Filed() && !v.decision.Undecided? && v.incidentId in w.incidents.items
    requires PlanCommands(w.actions, v.commands, v.incidentId, w.incidents.items[v.incidentId].planVersion + 1)
    ensures Keeps(w, w.(actions := CreateAll(w.actions, v.commands)))
    ensures Keeps(w, Commit(w.(actions := CreateAll(w.actions, v.commands)), v, now).world)
  {
    var w1 := w.(actions := CreateAll(w.actions, v.commands));
    CreateAllKeeps(w, v.commands, v.incidentId, w.incidents.items[v.incidentId].planVersion + 1);
    CommitKeeps(w1, v, now);
    KeepsTrans(w, w1, Commit(w1, v, now).world);
  }

  /** A decision creates the commands of its plan and resolves nothing. */
  lemma DecideKeeps(w: World, v: Verdict, now: int)
    requires w.actions.Filed() && !v.decision.Undecided?
    requires v.incidentId in w.incidents.items ==>
               PlanCommands(w.actions, v.commands, v.incidentId, w.incidents.items[v.incidentId].planVersion + 1)
    ensures Keeps(w, Decide(w, v, now).world)
  {
    if v.incidentId !in w.incidents.items || Decide(w, v, now).world == w {
      AsideKeeps(w, w);
    } else if v.decision.Allow? {
      AllowKeeps(w, v, now);
    } else {
      CommitKeeps(w, v, now);
    }
  }

  lemma CommitKeeps(w: World, v: Verdict, now: int)
    requires !v.decision.Undecided? && v.incidentId in w.incidents.items
    ensures Keeps(w, Commit(w, v, now).world)
  {
    AsideKeeps(w, w);
    if CanAdvance(w.incidents.items[v.incidentId].state, TargetOf(v.decision)) {
      AdvanceReaches(w.incidents, v.incidentId, TargetOf(v.decision), now);
      DecidedKeeps(w, Commit(w, v, now).world, v.incidentId);
    }
  }

  /** One incident moved, to a state other than RESOLVED. */
  lemma DecidedKeeps(w: World, v: World, id: Id)
    requires OnlyIncident(w, v.(outbox := w.outbox), id) && !InState(v, id, Resolved)
    ensures Keeps(w, v)
  {}
}
