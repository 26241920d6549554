/** What one segment of the executor keeps of every command and incident when it writes the snapshots that it was
    suspended with: identities, versions, settled commands, the incident's plan, and the reconciler's records. */
module HandlerContinuity {
  import opened Options
  import opened DurableCore
  import opened IncidentRepository
  import opened Execution
  import OutboxRepository

  // ---------------------------------------------------------------- what is kept

  /** Reconciliation has nothing left to find out about the command. */
  predicate Settled(s: ActionState) { s.Success? || s.Failed? || s.RolledBack? || s.RollbackRequired? }

  /** `d` is a later value of the command `c`. */
  predicate Follows(c: ActionCommand, d: ActionCommand) {
    && d.commandId == c.commandId && d.incidentId == c.incidentId && d.planVersion == c.planVersion && d.requestedAt == c.requestedAt
    && (d == c || c.version < d.version)
  }

  /** `j` is a later value of the incident `i`: its state only climbs, and once it is being mitigated its plan stays,
      unless it has left for an operator. */
  predicate Climbs(i: Incident, j: Incident) {
    && Rank(i.state) <= Rank(j.state)
    && (Rank(Mitigating) <= Rank(i.state) ==> j.planVersion == i.planVersion || Rank(IncidentState.Escalated) <= Rank(j.state))
  }

  ghost predicate Anchored(w: World, v: World) {
    && (forall id <- w.actions.byId :: id in v.actions.byId && Follows(w.actions.byId[id], v.actions.byId[id]))
    && (forall id <- w.incidents.items :: id in v.incidents.items && Climbs(w.incidents.items[id], v.incidents.items[id]))
    && (w.actions.Filed() ==> v.actions.Filed())
  }

  /** An attempted command keeps its attempt, and a settled one stays settled. */
  predicate Holds(c: ActionCommand, d: ActionCommand) {
    && (!c.state.Ready? ==> !d.state.Ready? && d.lastAttemptAt == c.lastAttemptAt)
    && (Settled(c.state) ==> Settled(d.state))
  }

  /** The records that only the reconciler writes. */
  ghost predicate SameRecords(w: World, v: World) {
    && v.attempts == w.attempts
    && forall x: CheckId :: x.Reverify? ==> (x in v.checks <==> x in w.checks) && (x in w.checks ==> v.checks[x] == w.checks[x])
  }

  /** Every incident keeps its plan. */
  ghost predicate SamePlans(w: World, v: World) {
    forall id <- w.incidents.items :: id in v.incidents.items && v.incidents.items[id].planVersion == w.incidents.items[id].planVersion
  }

  ghost predicate Kept(w: World, v: World) {
    SameRecords(w, v) && SamePlans(w, v) && forall id <- w.actions.byId :: id in v.actions.byId && Holds(w.actions.byId[id], v.actions.byId[id])
  }

  ghost predicate Continues(w: World, v: World) { Anchored(w, v) && Kept(w, v) }

  lemma AnchoredTrans(u: World, v: World, w: World)
    requires Anchored(u, v) && Anchored(v, w)
    ensures Anchored(u, w)
  {}

  lemma KeptTrans(u: World, v: World, w: World)
    requires Kept(u, v) && Kept(v, w)
    ensures Kept(u, w)
  {}

  lemma ContinuesTrans(u: World, v: World, w: World)
    requires Continues(u, v) && Continues(v, w)
    ensures Continues(u, w)
  {
    AnchoredTrans(u, v, w);
    KeptTrans(u, v, w);
  }

  // ---------------------------------------------------------------- snapshots

  /** A snapshot that is the stored command, or has been overtaken. */
  predicate Honest(w: World, a: ActionCommand) {
    a.commandId in w.actions.byId && (w.actions.byId[a.commandId] == a || a.version < w.actions.byId[a.commandId].version)
  }

  predicate Stored(w: World, a: ActionCommand) { a.commandId in w.actions.byId && w.actions.byId[a.commandId] == a }

  /** The executor moves a command in state `from` on to `to`. */
  predicate Proper(from: ActionState, to: ActionState) {
    !to.Ready? && (to.Sent? ==> from.Ready?) && (Settled(from) ==> Settled(to))
  }

  /** What a suspended handler holds is stored, in the state that it waits in. */
  predicate Suspends(w: World, next: Next) {
    match next
    case Returned => true
    case AwaitExecute(a) => Stored(w, a) && a.state.Sent?
    case AwaitReconcile(a) => Stored(w, a) && (a.state.OutcomeUnknown? || a.state.ReconciliationRequired?)
    case AwaitVerify(a) => Stored(w, a) && a.state.Acknowledged?
    case AwaitRollback(a, b) => Stored(w, b) && b.state.Sent?
    case AwaitVerifyRollback(a, b) => Stored(w, b) && b.state.Acknowledged?
  }

  /** The result of a segment. */
  ghost predicate Proceeds(w: World, r: Eff<Next>) { Continues(w, r.world) && (r.Ok? ==> Suspends(r.world, r.value)) }

  lemma ProceedsAfter(u: World, w: World, r: Eff<Next>)
    requires Continues(u, w) && Proceeds(w, r)
    ensures Proceeds(u, r)
  {
    ContinuesTrans(u, w, r.world);
  }

  // ---------------------------------------------------------------- writes

  lemma AsideContinues(w: World, v: World)
    requires v.actions == w.actions && v.incidents == w.incidents && v.attempts == w.attempts && v.checks == w.checks
    ensures Continues(w, v)
  {}

  lemma UpdateContinues(w: World, a: ActionCommand, state: ActionState, rid: Option<Id>, now: int)
    requires Honest(w, a) && Proper(a.state, state)
    ensures var r := UpdateAction(w, a, state, rid, now);
            Continues(w, r.world) && (r.Ok? ==> Stored(r.world, r.value) && r.value.state == state && r.value.commandId == a.commandId)
  {}

  lemma MoveContinues(w: World, id: Id, from: IncidentState, to: IncidentState, now: int)
    requires CanMove(from, to)
    ensures Continues(w, MoveIncidentFrom(w, id, from, to, now)) && MoveIncidentFrom(w, id, from, to, now).actions == w.actions
  {
    var v := MoveIncidentFrom(w, id, from, to, now);
    TransitionsClimb(from, to);
    MovedIncident(w, id, from, to, now);
    assert v == w.(incidents := v.incidents);
    MovedContinues(w, v, id, to, now);
  }

  lemma MovedContinues(w: World, v: World, id: Id, to: IncidentState, now: int)
    requires v == w.(incidents := v.incidents)
    requires v.incidents.items == w.incidents.items
             || (id in w.incidents.items && Rank(w.incidents.items[id].state) <= Rank(to)
                 && v.incidents.items == w.incidents.items[id := Moved(w.incidents.items[id], to, now)])
    ensures Continues(w, v)
  {}

  lemma MovedIncident(w: World, id: Id, from: IncidentState, to: IncidentState, now: int)
    requires CanMove(from, to)
    ensures var items := MoveIncidentFrom(w, id, from, to, now).incidents.items;
            items == if InState(w, id, from) then w.incidents.items[id := Moved(w.incidents.items[id], to, now)] else w.incidents.items
  {}

  lemma WriteContinues(w: World, id: Id, v: Option<VerificationState>, o: Option<IncidentOutcome>,
                       r: Option<RecoveryState>, now: int)
    ensures Continues(w, WriteIncident(w, id, v, o, r, now).world) && WriteIncident(w, id, v, o, r, now).world.actions == w.actions
  {}

  lemma SaveRecoveryContinues(w: World, id: Id, state: RecoveryState, now: int)
    ensures Continues(w, SaveRecovery(w, id, state, now).world) && SaveRecovery(w, id, state, now).world.actions == w.actions
  {}

  lemma ReportContinues(w: World, a: ActionCommand, status: OutboxRepository.ExecutionStatus, now: int)
    ensures Continues(w, AppendOutbox(w, a, status, now).world)
  {
    AsideContinues(w, AppendOutbox(w, a, status, now).world);
  }

  lemma SaveCheckContinues(w: World, id: Id, incident: Id, v: VerifyAnswer, state: VerificationState, now: int)
    ensures Continues(w, SaveCheck(w, Verify(id), incident, v, state, now))
  {}

  lemma SettleProceeds(w: World, a: ActionCommand, state: ActionState, status: OutboxRepository.ExecutionStatus,
                       now: int)
    requires Honest(w, a) && Proper(a.state, state)
    ensures Proceeds(w, Settle(w, a, state, status, now))
  {
    var r := UpdateAction(w, a, state, None, now);
    UpdateContinues(w, a, state, None, now);
    if r.Ok? {
      ReportContinues(r.world, r.value, status, now);
      ContinuesTrans(w, r.world, AppendOutbox(r.world, r.value, status, now).world);
    }
  }

  /** A move of the incident, then a row in the outbox. */
  lemma MoveAndReportContinues(w: World, id: Id, from: IncidentState, to: IncidentState, a: ActionCommand,
                               status: OutboxRepository.ExecutionStatus, now: int)
    requires CanMove(from, to)
    ensures Continues(w, AppendOutbox(MoveIncidentFrom(w, id, from, to, now), a, status, now).world)
  {
    var v := MoveIncidentFrom(w, id, from, to, now);
    MoveContinues(w, id, from, to, now);
    ReportContinues(v, a, status, now);
    ContinuesTrans(w, v, AppendOutbox(v, a, status, now).world);
  }

  // ---------------------------------------------------------------- the way to the provider

  lemma PersistBlockProceeds(w: World, a: ActionCommand, now: int)
    requires w.actions.Filed()
    ensures Proceeds(w, PersistBlock(w, a, now))
  {
    var current := if a.commandId in w.actions.byId then w.actions.byId[a.commandId] else a;
    var r := UpdateAction(w, current, ActionState.Failed, None, now);
    if !current.state.Ready? {
      MoveAndReportContinues(w, a.incidentId, Approved, Blocked, current, OutboxRepository.BlockedRow, now);
    } else if a.commandId !in w.actions.byId {
      AsideContinues(w, w);
    } else {
      UpdateContinues(w, current, ActionState.Failed, None, now);
      if r.Ok? {
        MoveAndReportContinues(r.world, a.incidentId, Approved, Blocked, r.value, OutboxRepository.BlockedRow, now);
        ContinuesTrans(w, r.world, PersistBlock(w, a, now).world);
      }
    }
  }

  lemma ChargeAndCallProceeds(w: World, sent: ActionCommand, now: int)
    requires Stored(w, sent) && sent.state.Sent?
    ensures Proceeds(w, ChargeAndCall(w, sent, now))
  {
    var r := RecordCost(w, sent);
    ChargeOnly(w, sent);
    if r.Raised? {
      SettleProceeds(w, sent, ActionState.Failed, OutboxRepository.BlockedRow, now);
    } else {
      var v := ChargeAndCall(w, sent, now).world;
      assert v == r.world.(journal := v.journal);
      AsideContinues(w, v);
    }
  }

  lemma ChargeOnly(w: World, sent: ActionCommand)
    ensures RecordCost(w, sent).world == w.(ledger := RecordCost(w, sent).world.ledger)
    ensures RecordCost(w, sent).Raised? ==> RecordCost(w, sent).world == w
  {}

  lemma CallProviderProceeds(w: World, sent: ActionCommand, s: Settings, t: Instants)
    requires Stored(w, sent) && sent.state.Sent?
    ensures Proceeds(w, CallProvider(w, sent, s, t))
  {
    if !OwnershipCurrent(w, sent, t.owned) {
      SettleProceeds(w, sent, OutcomeUnknown, OutboxRepository.OutcomeUnknownRow, t.owned);
    } else if sent.incidentId in w.incidents.items && Eligible(w, sent, s, t.final) {
      ChargeAndCallProceeds(w, sent, t.final);
    } else {
      SettleProceeds(w, sent, ActionState.Failed, OutboxRepository.BlockedRow, t.final);
    }
  }

  lemma TakeUpProceeds(w: World, a: ActionCommand, s: Settings, t: Instants, fail: Option<Failpoint>)
    requires w.actions.Filed() && Stored(w, a) && a.incidentId in w.incidents.items
    ensures Proceeds(w, TakeUp(w, a, s, t, fail))
  {
    AsideContinues(w, w);
    if a.state.Ready? && !Eligible(w, a, s, t.rechecked) {
      PersistBlockProceeds(w, a, t.rechecked);
    } else if a.state.Ready? {
      ClaimProceeds(w, a, s, t, fail);
    }
  }

  lemma ClaimProceeds(w: World, a: ActionCommand, s: Settings, t: Instants, fail: Option<Failpoint>)
    requires Stored(w, a) && a.state.Ready? && a.incidentId in w.incidents.items && Eligible(w, a, s, t.rechecked)
    ensures Proceeds(w, TakeUp(w, a, s, t, fail))
  {
    var w1 := MoveIncidentFrom(w, a.incidentId, Approved, Mitigating, t.rechecked);
    var r := UpdateAction(w1, a, ActionState.Sent, None, t.rechecked);
    MoveContinues(w, a.incidentId, Approved, Mitigating, t.rechecked);
    UpdateContinues(w1, a, ActionState.Sent, None, t.rechecked);
    ContinuesTrans(w, w1, r.world);
    if r.Ok? && fail != Some(AfterSentBeforeProvider) {
      CallProviderProceeds(r.world, r.value, s, t);
      ProceedsAfter(w, r.world, CallProvider(r.world, r.value, s, t));
    }
  }

  lemma OwnProceeds(w: World, a: ActionCommand, s: Settings, t: Instants, fail: Option<Failpoint>)
    requires w.actions.Filed() && Stored(w, a) && a.incidentId in w.incidents.items
    ensures Proceeds(w, Own(w, a, s, t, fail))
  {
    var leased := EnsureOwnership(w, a, t.leased);
    if fail == Some(BeforeOwnership) {
      AsideContinues(w, w);
    } else if leased.None? {
      PersistBlockProceeds(w, a, t.leased);
    } else {
      AsideContinues(w, leased.value);
      if fail != Some(AfterOwnershipBeforeSent) {
        TakeUpProceeds(leased.value, a, s, t, fail);
        ProceedsAfter(w, leased.value, TakeUp(leased.value, a, s, t, fail));
      }
    }
  }

  lemma StartReadyProceeds(w: World, a: ActionCommand, s: Settings, cap: Capability, t: Instants,
                           fail: Option<Failpoint>)
    requires w.actions.Filed() && Stored(w, a)
    ensures Proceeds(w, StartReady(w, a, s, cap, t, fail))
  {
    if a.incidentId !in w.incidents.items || !Eligible(w, a, s, t.checked) || !ModeAllows(s) || !cap.mutation {
      PersistBlockProceeds(w, a, t.checked);
    } else {
      OwnProceeds(w, a, s, t, fail);
    }
  }

  // ---------------------------------------------------------------- answers

  lemma BeginVerifyProceeds(w: World, a: ActionCommand, now: int)
    requires Stored(w, a) && a.state.Acknowledged?
    ensures Proceeds(w, BeginVerify(w, a, now))
  {
    MoveContinues(w, a.incidentId, Mitigating, Verifying, now);
  }

  /** The command is acknowledged, and its verification begins. */
  lemma AcknowledgedProceeds(w: World, a: ActionCommand, rid: Option<Id>, now: int)
    requires Honest(w, a) && !Settled(a.state)
    ensures var r := UpdateAction(w, a, Acknowledged, rid, now);
            Continues(w, r.world) && (r.Ok? ==> Proceeds(w, BeginVerify(r.world, r.value, now)))
  {
    var r := UpdateAction(w, a, Acknowledged, rid, now);
    UpdateContinues(w, a, Acknowledged, rid, now);
    if r.Ok? {
      BeginVerifyProceeds(r.world, r.value, now);
      ProceedsAfter(w, r.world, BeginVerify(r.world, r.value, now));
    }
  }

  lemma AfterExecuteProceeds(w: World, sent: ActionCommand, answer: ProviderAnswer, now: int, fail: Option<Failpoint>)
    requires Honest(w, sent) && sent.state.Sent?
    ensures Proceeds(w, AfterExecute(w, sent, answer, now, fail))
  {
    if answer.Ambiguous? || fail == Some(AfterProviderBeforeResult) {
      SettleProceeds(w, sent, OutcomeUnknown, OutboxRepository.OutcomeUnknownRow, now);
    } else if answer.Rejected? {
      RejectedProceeds(w, sent, answer, now, fail);
    } else {
      AcknowledgedProceeds(w, sent, answer.resource, now);
    }
  }

  lemma FailedAndReported(w: World, a: ActionCommand, id: Id, check: Check, now: int)
    ensures Continues(w, AppendOutbox(w.(checks := w.checks[Verify(id) := check]), a, OutboxRepository.ProviderFailedRow, now).world)
  {
    var v := w.(checks := w.checks[Verify(id) := check]);
    assert Continues(w, v);
    ReportContinues(v, a, OutboxRepository.ProviderFailedRow, now);
    ContinuesTrans(w, v, AppendOutbox(v, a, OutboxRepository.ProviderFailedRow, now).world);
  }

  lemma RejectedProceeds(w: World, sent: ActionCommand, answer: ProviderAnswer, now: int, fail: Option<Failpoint>)
    requires Honest(w, sent) && sent.state.Sent? && answer.Rejected? && fail != Some(AfterProviderBeforeResult)
    ensures Proceeds(w, AfterExecute(w, sent, answer, now, fail))
  {
    var r := UpdateAction(w, sent, ActionState.Failed, None, now);
    UpdateContinues(w, sent, ActionState.Failed, None, now);
    if r.Ok? {
      var check := Check(sent.incidentId, VerificationState.Failed, false, now);
      FailedAndReported(r.world, r.value, sent.commandId, check, now);
      ContinuesTrans(w, r.world, AfterExecute(w, sent, answer, now, fail).world);
    }
  }

  lemma BeginReconcileProceeds(w: World, a: ActionCommand, now: int)
    requires Stored(w, a) && !Settled(a.state)
    ensures Proceeds(w, BeginReconcile(w, a, now))
  {
    AsideContinues(w, w);
    UpdateContinues(w, a, OutcomeUnknown, None, now);
  }

  lemma AfterReconcileProceeds(w: World, a: ActionCommand, answer: ReconcileAnswer, now: int)
    requires Honest(w, a) && !Settled(a.state)
    ensures Proceeds(w, AfterReconcile(w, a, answer, now))
  {
    match answer
    case Present(resource) => AcknowledgedProceeds(w, a, resource.Or(a.providerResourceId), now);
    case Absent => SettleProceeds(w, a, ActionState.Failed, OutboxRepository.ProviderFailedRow, now);
    case Unknown => StillUnknownProceeds(w, a, now);
  }

  /** The executor's read found nothing out. */
  lemma StillUnknownProceeds(w: World, a: ActionCommand, now: int)
    requires Honest(w, a) && !Settled(a.state)
    ensures Proceeds(w, AfterReconcile(w, a, Unknown, now))
  {
    if a.state.ReconciliationRequired? {
      ReportContinues(w, a, OutboxRepository.OutcomeUnknownRow, now);
    } else {
      SettleProceeds(w, a, ReconciliationRequired, OutboxRepository.OutcomeUnknownRow, now);
      assert AfterReconcile(w, a, Unknown, now) == Settle(w, a, ReconciliationRequired, OutboxRepository.OutcomeUnknownRow, now);
    }
  }

  lemma ResolveContinues(w: World, id: Id, from: IncidentState, v: Option<VerificationState>, o: IncidentOutcome,
                         r: Option<RecoveryState>, now: int)
    requires CanMove(from, Resolved)
    ensures Continues(w, Resolve(w, id, from, v, o, r, now)) && Resolve(w, id, from, v, o, r, now).actions == w.actions
  {
    AsideContinues(w, w);
    var w1 := MoveIncidentFrom(w, id, from, Resolved, now);
    MoveContinues(w, id, from, Resolved, now);
    WriteContinues(w1, id, v, Some(o), r, now);
    ContinuesTrans(w, w1, WriteIncident(w1, id, v, Some(o), r, now).world);
  }

  lemma MaybeResolveContinues(w: World, incident: Id, plan: int, now: int)
    ensures Continues(w, MaybeResolve(w, incident, plan, now)) && MaybeResolve(w, incident, plan, now).actions == w.actions
  {
    AsideContinues(w, w);
    var v := Resolve(w, incident, Verifying, Some(Improved), IncidentOutcome.VerifiedImproved, None, now);
    ResolveContinues(w, incident, Verifying, Some(Improved), IncidentOutcome.VerifiedImproved, None, now);
    AsideContinues(v, v.(leases := ReleaseAll(w.leases, incident)));
    ContinuesTrans(w, v, v.(leases := ReleaseAll(w.leases, incident)));
  }

  lemma SucceededContinues(w: World, a: ActionCommand, now: int, u: Eff<ActionCommand>)
    requires Honest(w, a) && a.state.Acknowledged? && u == UpdateAction(w, a, Success, None, now) && u.Ok?
    ensures Continues(w, AppendOutbox(MaybeResolve(u.world, a.incidentId, a.planVersion, now), u.value,
                                      OutboxRepository.VerifiedRow, now).world)
  {
    var v := MaybeResolve(u.world, a.incidentId, a.planVersion, now);
    UpdateContinues(w, a, Success, None, now);
    MaybeResolveContinues(u.world, a.incidentId, a.planVersion, now);
    ReportContinues(v, u.value, OutboxRepository.VerifiedRow, now);
    ContinuesTrans(w, u.world, v);
    ContinuesTrans(w, v, AppendOutbox(v, u.value, OutboxRepository.VerifiedRow, now).world);
  }

  lemma PublishProceeds(w: World, a: ActionCommand, state: VerificationState, s: Settings, cap: Capability, freshId: Id,
                        now: int, fail: Option<Failpoint>)
    requires w.actions.Filed() && Honest(w, a) && a.state.Acknowledged? && freshId !in w.actions.byId
    ensures Proceeds(w, Publish(w, a, state, s, cap, freshId, now, fail))
  {
    if state.Improved? {
      UpdateContinues(w, a, Success, None, now);
      var u := UpdateAction(w, a, Success, None, now);
      if u.Ok? { SucceededContinues(w, a, now, u); }
    } else if state.Unchanged? || state.Degraded? {
      UpdateContinues(w, a, RollbackRequired, None, now);
      var u := UpdateAction(w, a, RollbackRequired, None, now);
      if u.Ok? {
        BeginRollbackProceeds(u.world, u.value, s, cap, freshId, now, fail);
        ProceedsAfter(w, u.world, BeginRollback(u.world, u.value, s, cap, freshId, now, fail));
      }
    } else {
      SettleProceeds(w, a, ReconciliationRequired, OutboxRepository.VerificationUnavailableRow, now);
    }
  }

  lemma AfterVerifyProceeds(w: World, a: ActionCommand, v: VerifyAnswer, s: Settings, cap: Capability, freshId: Id,
                            now: int, fail: Option<Failpoint>)
    requires w.actions.Filed() && Honest(w, a) && a.state.Acknowledged? && freshId !in w.actions.byId
    ensures Proceeds(w, AfterVerify(w, a, v, s, cap, freshId, now, fail))
  {
    var state := VerificationOf(v);
    var w1 := SaveCheck(w, Verify(a.commandId), a.incidentId, v, state, now);
    var w2 := WriteIncident(w1, a.incidentId, Some(state), None, None, now);
    SaveCheckContinues(w, a.commandId, a.incidentId, v, state, now);
    WriteContinues(w1, a.incidentId, Some(state), None, None, now);
    ContinuesTrans(w, w1, w2.world);
    if w2.Ok? && fail != Some(AfterVerificationBeforePublication) {
      PublishProceeds(w2.world, a, state, s, cap, freshId, now, fail);
      ProceedsAfter(w, w2.world, Publish(w2.world, a, state, s, cap, freshId, now, fail));
    }
  }

  // ---------------------------------------------------------------- rollback

  lemma CreateContinues(w: World, c: ActionCommand)
    requires w.actions.Filed() && c.commandId !in w.actions.byId
    ensures Continues(w, w.(actions := w.actions.CreateOrGet(c).0))
            && Stored(w.(actions := w.actions.CreateOrGet(c).0), w.actions.CreateOrGet(c).1)
  {
    var (store, r) := w.actions.CreateOrGet(c);
    assert store == w.actions || store.byId == w.actions.byId[c.commandId := c];
    assert store.Filed() && r.commandId in store.byId && store.byId[r.commandId] == r;
    AddedContinues(w, w.(actions := store), c);
  }

  /** One command more. */
  lemma AddedContinues(w: World, v: World, c: ActionCommand)
    requires c.commandId !in w.actions.byId && v == w.(actions := v.actions) && v.actions.Filed()
    requires v.actions.byId == w.actions.byId || v.actions.byId == w.actions.byId[c.commandId := c]
    ensures Continues(w, v)
  {}

  lemma BeginRollbackProceeds(w: World, a: ActionCommand, s: Settings, cap: Capability, freshId: Id, now: int,
                              fail: Option<Failpoint>)
    requires w.actions.Filed() && freshId !in w.actions.byId
    ensures Proceeds(w, BeginRollback(w, a, s, cap, freshId, now, fail))
  {
    AsideContinues(w, w);
    if !ModeAllows(s) {
      ReportContinues(w, a, OutboxRepository.RecoveryRequiredRow, now);
    } else if !cap.rollback || a.providerResourceId.None? {
      RefuseRollbackContinues(w, a, now);
    } else if IsPlanType(a.commandType) {
      var (store, r) := w.actions.CreateOrGet(RollbackCommand(a, freshId, now));
      CreateContinues(w, RollbackCommand(a, freshId, now));
      UndertakeProceeds(w.(actions := store), a, r, now, fail);
      ProceedsAfter(w, w.(actions := store), Undertake(w.(actions := store), a, r, now, fail));
    }
  }

  lemma RefuseRollbackContinues(w: World, a: ActionCommand, now: int)
    ensures Continues(w, RefuseRollback(w, a, now).world)
  {
    var r := SaveRecovery(w, a.incidentId, RecoveryState.Failed, now);
    SaveRecoveryContinues(w, a.incidentId, RecoveryState.Failed, now);
    if r.Ok? {
      MoveAndReportContinues(r.world, a.incidentId, Verifying, IncidentState.Escalated, a, OutboxRepository.RecoveryRequiredRow, now);
      ContinuesTrans(w, r.world, RefuseRollback(w, a, now).world);
    }
  }

  lemma UndertakeProceeds(w: World, a: ActionCommand, r: ActionCommand, now: int, fail: Option<Failpoint>)
    requires Stored(w, r)
    ensures Proceeds(w, Undertake(w, a, r, now, fail))
  {
    AsideContinues(w, w);
    if r.state.Sent? {
      UpdateContinues(w, r, OutcomeUnknown, None, now);
    } else if r.state.Ready? {
      var u := UpdateAction(w, r, ActionState.Sent, None, now);
      UpdateContinues(w, r, ActionState.Sent, None, now);
      if u.Ok? {
        ClaimedRollbackProceeds(u.world, a, u.value, now, fail);
        ProceedsAfter(w, u.world, ClaimedRollback(u.world, a, u.value, now, fail));
      }
    }
  }

  lemma ClaimedRollbackProceeds(w: World, a: ActionCommand, sent: ActionCommand, now: int, fail: Option<Failpoint>)
    requires Stored(w, sent) && sent.state.Sent?
    ensures Proceeds(w, ClaimedRollback(w, a, sent, now, fail))
  {
    var r := SaveRecovery(w, a.incidentId, Releasing, now);
    SaveRecoveryContinues(w, a.incidentId, Releasing, now);
    if r.Ok? && fail != Some(AfterRollbackSentBeforeProvider) {
      if OwnershipCurrent(r.world, a, now) {
        AsideContinues(r.world, ClaimedRollback(w, a, sent, now, fail).world);
        ContinuesTrans(w, r.world, ClaimedRollback(w, a, sent, now, fail).world);
      } else {
        SettleProceeds(r.world, sent, OutcomeUnknown, OutboxRepository.OutcomeUnknownRow, now);
        ProceedsAfter(w, r.world, Settle(r.world, sent, OutcomeUnknown, OutboxRepository.OutcomeUnknownRow, now));
      }
    }
  }

  /** The recovery record, then a row in the outbox. */
  lemma RecordAndReportContinues(w: World, incident: Id, state: RecoveryState, a: ActionCommand,
                                 status: OutboxRepository.ExecutionStatus, now: int)
    ensures var r := SaveRecovery(w, incident, state, now);
            Continues(w, r.world) && (r.Ok? ==> Continues(w, AppendOutbox(r.world, a, status, now).world))
  {
    var r := SaveRecovery(w, incident, state, now);
    SaveRecoveryContinues(w, incident, state, now);
    ReportContinues(r.world, a, status, now);
    ContinuesTrans(w, r.world, AppendOutbox(r.world, a, status, now).world);
  }

  lemma AfterRollbackProceeds(w: World, a: ActionCommand, sent: ActionCommand, answer: ProviderAnswer, explicit: bool,
                              now: int, fail: Option<Failpoint>)
    requires Honest(w, sent) && sent.state.Sent?
    ensures Proceeds(w, AfterRollback(w, a, sent, answer, explicit, now, fail))
  {
    var v := AfterRollback(w, a, sent, answer, explicit, now, fail).world;
    if answer.Ambiguous? || fail == Some(AfterRollbackProviderBeforeResult) {
      var u := UpdateAction(w, sent, OutcomeUnknown, None, now);
      UpdateContinues(w, sent, OutcomeUnknown, None, now);
      if u.Ok? {
        var m := MoveIncidentFrom(u.world, a.incidentId, Verifying, Recovering, now);
        MoveContinues(u.world, a.incidentId, Verifying, Recovering, now);
        ContinuesTrans(w, u.world, m);
        RecordAndReportContinues(m, a.incidentId, Partial, u.value, OutboxRepository.OutcomeUnknownRow, now);
        ContinuesTrans(w, m, v);
      }
    } else if answer.Rejected? {
      var u := UpdateAction(w, sent, ActionState.Failed, None, now);
      UpdateContinues(w, sent, ActionState.Failed, None, now);
      if u.Ok? && explicit {
        SaveRecoveryContinues(u.world, a.incidentId, RecoveryState.Failed, now);
        ContinuesTrans(w, u.world, v);
      }
    } else {
      UpdateContinues(w, sent, Acknowledged, None, now);
    }
  }

  lemma UnverifiedProceeds(w: World, a: ActionCommand, accepted: ActionCommand, now: int)
    requires Honest(w, accepted) && accepted.state.Acknowledged?
    ensures Proceeds(w, AfterVerifyRollback(w, a, accepted, false, now))
  {
    var w1 := MoveIncidentFrom(w, a.incidentId, Verifying, Recovering, now);
    MoveContinues(w, a.incidentId, Verifying, Recovering, now);
    var u := UpdateAction(w1, accepted, ReconciliationRequired, None, now);
    UpdateContinues(w1, accepted, ReconciliationRequired, None, now);
    ContinuesTrans(w, w1, u.world);
    UnverifiedIs(w, a, accepted, now, u);
    if u.Ok? {
      RecordAndReportContinues(u.world, a.incidentId, Partial, u.value, OutboxRepository.RecoveryRequiredRow, now);
      ContinuesTrans(w, u.world, AfterVerifyRollback(w, a, accepted, false, now).world);
    }
  }

  lemma UnverifiedIs(w: World, a: ActionCommand, accepted: ActionCommand, now: int, u: Eff<ActionCommand>)
    requires u == UpdateAction(MoveIncidentFrom(w, a.incidentId, Verifying, Recovering, now), accepted,
                               ReconciliationRequired, None, now)
    ensures var r := AfterVerifyRollback(w, a, accepted, false, now); var saved := SaveRecovery(u.world, a.incidentId, Partial, now);
            && r.world == (if u.Raised? then u.world else if saved.Raised? then saved.world
                           else AppendOutbox(saved.world, u.value, OutboxRepository.RecoveryRequiredRow, now).world)
            && (r.Ok? ==> r.value.Returned?)
  {}

  lemma UndoOriginalContinues(w: World, a: ActionCommand, now: int)
    requires w.actions.Filed()
    ensures Continues(w, UndoOriginal(w, a, now).world)
  {
    AsideContinues(w, w);
    if a.commandId in w.actions.byId && w.actions.byId[a.commandId].state.RollbackRequired? {
      UpdateContinues(w, w.actions.byId[a.commandId], RolledBack, None, now);
    }
  }

  lemma ResolvedAndReported(w: World, incident: Id, a: ActionCommand, now: int)
    ensures Continues(w, AppendOutbox(ResolveRolledBack(w, incident, now), a, OutboxRepository.RolledBackRow, now).world)
  {
    var v := ResolveRolledBack(w, incident, now);
    ResolveContinues(w, incident, Recovering, None, RolledBackSafely, Some(RecoveryState.Complete), now);
    ReportContinues(v, a, OutboxRepository.RolledBackRow, now);
    ContinuesTrans(w, v, AppendOutbox(v, a, OutboxRepository.RolledBackRow, now).world);
  }

  lemma FinishRollbackProceeds(w: World, a: ActionCommand, accepted: ActionCommand, now: int)
    requires w.actions.Filed() && Honest(w, accepted) && accepted.state.Acknowledged?
    ensures Proceeds(w, FinishRollback(w, a, accepted, now))
  {
    var u := UpdateAction(w, accepted, RolledBack, None, now);
    UpdateContinues(w, accepted, RolledBack, None, now);
    if u.Ok? {
      var o := UndoOriginal(u.world, a, now);
      UndoOriginalContinues(u.world, a, now);
      ContinuesTrans(w, u.world, o.world);
      if o.Ok? {
        var r := SaveRecovery(o.world, a.incidentId, RecoveryState.Complete, now);
        SaveRecoveryContinues(o.world, a.incidentId, RecoveryState.Complete, now);
        ContinuesTrans(w, o.world, r.world);
        if r.Ok? {
          ResolvedAndReported(r.world, a.incidentId, u.value, now);
          ContinuesTrans(w, r.world, FinishRollback(w, a, accepted, now).world);
        }
      }
    }
  }

  lemma AfterVerifyRollbackProceeds(w: World, a: ActionCommand, accepted: ActionCommand, verified: bool, now: int)
    requires w.actions.Filed() && Honest(w, accepted) && accepted.state.Acknowledged?
    ensures Proceeds(w, AfterVerifyRollback(w, a, accepted, verified, now))
  {
    if !verified {
      UnverifiedProceeds(w, a, accepted, now);
    } else {
      var w1 := MoveIncidentFrom(w, a.incidentId, Verifying, Recovering, now);
      MoveContinues(w, a.incidentId, Verifying, Recovering, now);
      var w2 := w1.(journal := w1.journal.(undone := w1.journal.undone + {a.commandId, accepted.commandId},
                                           recovered := w1.journal.recovered + {a.incidentId}));
      AsideContinues(w1, w2);
      ContinuesTrans(w, w1, w2);
      FinishRollbackProceeds(w2, a, accepted, now);
      ProceedsAfter(w, w2, FinishRollback(w2, a, accepted, now));
    }
  }

  // ---------------------------------------------------------------- the handler

  lemma StartProceeds(w: World, id: Id, s: Settings, cap: Capability, freshId: Id, t: Instants, fail: Option<Failpoint>)
    requires w.actions.Filed() && freshId !in w.actions.byId
    ensures Proceeds(w, Start(w, id, s, cap, freshId, t, fail))
  {
    if id !in w.actions.byId {
      AsideContinues(w, w);
      assert Start(w, id, s, cap, freshId, t, fail) == Raised(w);
    } else if w.actions.byId[id].state.Ready? {
      StartReadyProceeds(w, w.actions.byId[id], s, cap, t, fail);
      assert Start(w, id, s, cap, freshId, t, fail) == StartReady(w, w.actions.byId[id], s, cap, t, fail);
    } else if w.actions.byId[id].state.RollbackRequired? {
      BeginRollbackProceeds(w, w.actions.byId[id], s, cap, freshId, t.checked, fail);
      assert Start(w, id, s, cap, freshId, t, fail) == BeginRollback(w, w.actions.byId[id], s, cap, freshId, t.checked, fail);
    } else {
      StartedProceeds(w, w.actions.byId[id], s, cap, freshId, t, fail);
    }
  }

  /** The start for a command that has been sent. */
  lemma StartedProceeds(w: World, a: ActionCommand, s: Settings, cap: Capability, freshId: Id, t: Instants,
                        fail: Option<Failpoint>)
    requires w.actions.Filed() && Stored(w, a) && !a.state.Ready? && !a.state.RollbackRequired?
    ensures Proceeds(w, Start(w, a.commandId, s, cap, freshId, t, fail))
  {
    AsideContinues(w, w);
    if a.state.Acknowledged? {
      BeginVerifyProceeds(w, a, t.checked);
    } else if !Settled(a.state) {
      BeginReconcileProceeds(w, a, t.checked);
    }
  }

  /** What a suspended handler is told, and when. */
  datatype Reply = Reply(
    provider: ProviderAnswer, explicit: bool, found: ReconcileAnswer, verdict: VerifyAnswer, verified: bool,
    cap: Capability, freshId: Id, now: int, fail: Option<Failpoint>)

  /** The segment after an await. */
  function Resume(w: World, next: Next, y: Reply, s: Settings): Eff<Next>
    requires w.actions.Filed() && !next.Returned?
  {
    match next
    case AwaitExecute(a) => AfterExecute(w, a, y.provider, y.now, y.fail)
    case AwaitReconcile(a) => AfterReconcile(w, a, y.found, y.now)
    case AwaitVerify(a) => AfterVerify(w, a, y.verdict, s, y.cap, y.freshId, y.now, y.fail)
    case AwaitRollback(a, b) => AfterRollback(w, a, b, y.provider, y.explicit, y.now, y.fail)
    case AwaitVerifyRollback(a, b) => AfterVerifyRollback(w, a, b, y.verified, y.now)
  }

  lemma ResumeProceeds(w: World, next: Next, y: Reply, s: Settings)
    requires w.actions.Filed() && !next.Returned? && Suspends(w, next) && y.freshId !in w.actions.byId
    ensures Proceeds(w, Resume(w, next, y, s))
  {
    match next
    case AwaitExecute(a) => AfterExecuteProceeds(w, a, y.provider, y.now, y.fail);
    case AwaitReconcile(a) => AfterReconcileProceeds(w, a, y.found, y.now);
    case AwaitVerify(a) => AfterVerifyProceeds(w, a, y.verdict, s, y.cap, y.freshId, y.now, y.fail);
    case AwaitRollback(a, b) => AfterRollbackProceeds(w, a, b, y.provider, y.explicit, y.now, y.fail);
    case AwaitVerifyRollback(a, b) => AfterVerifyRollbackProceeds(w, a, b, y.verified, y.now);
  }

  /** A handler from one of its segments on, alone, to its end or to the await at which its process dies.  Identities
      that are not fresh are never drawn. */
  function Finish(r: Eff<Next>, ys: seq<Reply>, s: Settings): World
    decreases |ys|
  {
    if r.Raised? || r.value.Returned? || ys == [] || !r.world.actions.Filed() || ys[0].freshId in r.world.actions.byId then r.world
    else Finish(Resume(r.world, r.value, ys[0], s), ys[1..], s)
  }

  lemma {:induction false} FinishContinues(r: Eff<Next>, ys: seq<Reply>, s: Settings)
    requires r.Ok? ==> Suspends(r.world, r.value)
    ensures Continues(r.world, Finish(r, ys, s))
    decreases |ys|
  {
    if r.Raised? || r.value.Returned? || ys == [] || !r.world.actions.Filed() || ys[0].freshId in r.world.actions.byId {
      AsideContinues(r.world, r.world);
    } else {
      var next := Resume(r.world, r.value, ys[0], s);
      ResumeProceeds(r.world, r.value, ys[0], s);
      FinishContinues(next, ys[1..], s);
      ContinuesTrans(r.world, next.world, Finish(next, ys[1..], s));
    }
  }

  /** `execute_ready_action` from its start, whatever it is told. */
  function Handle(w: World, id: Id, s: Settings, cap: Capability, freshId: Id, t: Instants, fail: Option<Failpoint>,
                  ys: seq<Reply>): World
    requires w.actions.Filed()
  {
    Finish(Start(w, id, s, cap, freshId, t, fail), ys, s)
  }

  /** A complete handler settles commands and never unsettles one; it forgets none, renews no attempt, lets no incident
      fall back, changes the plan of none, and leaves the records of the reconciler alone. */
  lemma HandleContinues(w: World, id: Id, s: Settings, cap: Capability, freshId: Id, t: Instants,
                        fail: Option<Failpoint>, ys: seq<Reply>)
    requires w.actions.Filed() && freshId !in w.actions.byId
    ensures Continues(w, Handle(w, id, s, cap, freshId, t, fail, ys))
  {
    var r := Start(w, id, s, cap, freshId, t, fail);
    StartProceeds(w, id, s, cap, freshId, t, fail);
    FinishContinues(r, ys, s);
    ContinuesTrans(w, r.world, Handle(w, id, s, cap, freshId, t, fail, ys));
  }
}
