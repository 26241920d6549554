/** What each segment of the executor promises its caller, in terms of the world before and after it. */
module ExecutionOutcomes {
  import opened Options
  import opened DurableCore
  import opened IncidentRepository
  import opened Execution
  import opened CallConditions
  import opened ExecutionSegments
  import opened HandlerContinuity
  import OutboxRepository
  import opened RecoveryConsistency

  /** The snapshot was overtaken: its compare-and-swap fails. */
  predicate Overtaken(w: World, a: ActionCommand) {
    a.commandId !in w.actions.byId || w.actions.byId[a.commandId].version != a.version
  }

  /** The stored command, one version after the snapshot. */
  predicate Written1(v: World, a: ActionCommand) {
    a.commandId in v.actions.byId && v.actions.byId[a.commandId].version == a.version + 1
  }

  /** The row that reports the write of the snapshot `a`. */
  predicate Reported(v: World, a: ActionCommand, status: OutboxRepository.ExecutionStatus) {
    OutboxRepository.OutExecution(a.commandId, a.version + 1, status) in v.outbox
  }

  function StateIn(v: World, id: Id): ActionState
    requires id in v.actions.byId
  {
    v.actions.byId[id].state
  }

  lemma UpdateWrites(w: World, a: ActionCommand, state: ActionState, rid: Option<Id>, now: int)
    ensures var r := UpdateAction(w, a, state, rid, now);
            && r.world == w.(actions := r.world.actions)
            && (r.Raised? <==> Overtaken(w, a)) && (r.Raised? ==> r.world == w)
            && (r.Ok? ==>
                && Written1(r.world, a) && StateIn(r.world, a.commandId) == state
                && Stored(r.world, r.value) && r.value.commandId == a.commandId && r.value.version == a.version + 1
                && r.value.providerResourceId == rid.Or(a.providerResourceId)
                && r.world.actions.byId == w.actions.byId[a.commandId := r.value])
  {}

  /** The caller's view of a result. */
  function Seen(r: Eff<Next>): Option<Next> { if r.Ok? then Some(r.value) else None }

  /** A segment that wrote one command, and nothing else that a decision reads but incidents and recoveries. */
  ghost predicate WroteOne(w: World, v: World, a: ActionCommand, state: ActionState) {
    && v.leases == w.leases && v.journal == w.journal && v.ledger == w.ledger
    && (if Overtaken(w, a) then v == w else Written1(v, a) && StateIn(v, a.commandId) == state)
  }

  lemma SettleWrites(w: World, a: ActionCommand, state: ActionState, status: OutboxRepository.ExecutionStatus, now: int)
    ensures var r := Settle(w, a, state, status, now);
            && WroteOne(w, r.world, a, state) && r.world.checks == w.checks
            && (r.Ok? ==> r.value.Returned? && !Overtaken(w, a) && Reported(r.world, a, status))
  {
    UpdateWrites(w, a, state, None, now);
  }

  /** An incident that was being mitigated is now being verified. */
  predicate UnderVerification(w: World, v: World, incident: Id) {
    if InState(w, incident, Mitigating) then InState(v, incident, Verifying) else v.incidents == w.incidents
  }

  lemma AcknowledgeWrites(w: World, a: ActionCommand, rid: Option<Id>, now: int)
    ensures var u := UpdateAction(w, a, Acknowledged, rid, now);
            if u.Raised? then Overtaken(w, a) && u.world == w
            else
              var r := BeginVerify(u.world, u.value, now);
              && !Overtaken(w, a) && WroteOne(w, r.world, a, Acknowledged) && r.world.checks == w.checks
                 && r.world.actions.byId[a.commandId] == u.value && UnderVerification(w, r.world, a.incidentId)
              && u.value.providerResourceId == rid.Or(a.providerResourceId) && r == Ok(r.world, AwaitVerify(u.value))
  {
    UpdateWrites(w, a, Acknowledged, rid, now);
  }

  lemma FieldsAreWritten(w: World, id: Id, v: Option<VerificationState>, o: Option<IncidentOutcome>,
                         r: Option<RecoveryState>, now: int, updated: Incident)
    requires id in w.incidents.items && updated == WithFields(w.incidents.items[id], v, o, r, now)
    ensures WriteIncident(w, id, v, o, r, now) ==
            Ok(w.(incidents := w.incidents.(items := w.incidents.items[id := updated.(version := updated.version + 1)])), ())
  {}

  // ---------------------------------------------------------------- blocking

  /** A blocked READY command fails, any other stays; an APPROVED incident is blocked with it; a row reports it; nothing
      is charged, called or resolved, and the leases stay. */
  ghost predicate Blocks(w: World, v: World, a: ActionCommand, ok: bool, now: int) {
    && Keeps(w, v) && v.leases == w.leases && v.journal == w.journal
    && (a.commandId in w.actions.byId ==> BlocksStored(w, v, a.commandId, a.incidentId, now))
    && (!InState(w, a.incidentId, Approved) ==> v.incidents == w.incidents)
    && (ok && a.commandId in v.actions.byId ==>
        OutboxRepository.OutExecution(a.commandId, v.actions.byId[a.commandId].version, OutboxRepository.BlockedRow) in v.outbox)
  }

  /** A known command is blocked even when the report of it raises. */
  ghost predicate BlocksStored(w: World, v: World, id: Id, incident: Id, now: int)
    requires id in w.actions.byId
  {
    && (if w.actions.byId[id].state != Ready then v.actions == w.actions
        else
          && id in v.actions.byId && v.actions.byId[id].state == ActionState.Failed && v.actions.byId[id].completedAt == Some(now)
          && forall other <- w.actions.byId :: other != id ==> other in v.actions.byId && v.actions.byId[other] == w.actions.byId[other])
    && (InState(w, incident, Approved) ==> InState(v, incident, Blocked))
  }

  lemma BlockReports(w: World, current: ActionCommand, incident: Id, now: int)
    ensures var w1 := MoveIncidentFrom(w, incident, Approved, Blocked, now);
            var r := AppendOutbox(w1, current, OutboxRepository.BlockedRow, now);
            && r.world.actions == w.actions && r.world.leases == w.leases && r.world.journal == w.journal
            && (InState(w, incident, Approved) ==> InState(r.world, incident, Blocked))
            && (!InState(w, incident, Approved) ==> r.world.incidents == w.incidents)
            && (r.Ok? ==> OutboxRepository.OutExecution(current.commandId, current.version, OutboxRepository.BlockedRow) in r.world.outbox)
  {}

  lemma ReadyBlocks(w: World, a: ActionCommand, now: int, current: ActionCommand)
    requires current == (if a.commandId in w.actions.byId then w.actions.byId[a.commandId] else a)
             && current.state.Ready? && w.actions.Filed()
    requires Keeps(w, PersistBlock(w, a, now).world)
    ensures Blocks(w, PersistBlock(w, a, now).world, a, PersistBlock(w, a, now).Ok?, now)
  {
    var u := UpdateAction(w, current, ActionState.Failed, None, now);
    UpdateWrites(w, current, ActionState.Failed, None, now);
    if u.Ok? { BlockReports(u.world, u.value, a.incidentId, now); }
  }

  lemma OtherBlocks(w: World, a: ActionCommand, now: int, current: ActionCommand)
    requires current == (if a.commandId in w.actions.byId then w.actions.byId[a.commandId] else a)
             && !current.state.Ready? && w.actions.Filed()
    requires Keeps(w, PersistBlock(w, a, now).world)
    ensures Blocks(w, PersistBlock(w, a, now).world, a, PersistBlock(w, a, now).Ok?, now)
  {
    BlockReports(w, current, a.incidentId, now);
  }

  lemma PersistBlockBlocks(w: World, a: ActionCommand, now: int)
    requires w.actions.Filed()
    ensures Blocks(w, PersistBlock(w, a, now).world, a, PersistBlock(w, a, now).Ok?, now)
  {
    PersistBlockKeeps(w, a, now);
    var current := if a.commandId in w.actions.byId then w.actions.byId[a.commandId] else a;
    if current.state.Ready? { ReadyBlocks(w, a, now, current); } else { OtherBlocks(w, a, now, current); }
  }

  // ---------------------------------------------------------------- answers of the provider

  /** The answer of `adapter.execute` decides the command, unless the snapshot was overtaken: accepted, it is
      acknowledged with its resource and goes on to its verification; refused, it fails with a record that shows no
      improvement; otherwise its outcome is unknown.  Nothing is charged, called or resolved. */
  ghost predicate Answers(w: World, v: World, sent: ActionCommand, answer: ProviderAnswer, next: Option<Next>,
                          dies: bool) {
    Keeps(w, v) && Answered(w, v, sent, answer, next, dies)
  }

  function StateFor(answer: ProviderAnswer, dies: bool): ActionState {
    if answer.Ambiguous? || dies then OutcomeUnknown else if answer.Rejected? then ActionState.Failed else Acknowledged
  }

  ghost predicate Answered(w: World, v: World, sent: ActionCommand, answer: ProviderAnswer, next: Option<Next>,
                           dies: bool) {
    && WroteOne(w, v, sent, StateFor(answer, dies))
    && (next.Some? ==> !Overtaken(w, sent))
    && (!Overtaken(w, sent) && answer.Accepted? && !dies ==>
        v.actions.byId[sent.commandId].providerResourceId == if answer.resource.Some? then answer.resource else sent.providerResourceId)
    && (!Overtaken(w, sent) && answer.Rejected? && !dies ==>
        Verify(sent.commandId) in v.checks && v.checks[Verify(sent.commandId)].state.Failed?
          && !v.checks[Verify(sent.commandId)].improved)
    && (next.Some? ==> next.value == if answer.Accepted? && !dies then AwaitVerify(v.actions.byId[sent.commandId]) else Returned)
    && (next.Some? ==>
        match StateFor(answer, dies)
        case Acknowledged => UnderVerification(w, v, sent.incidentId)
        case OutcomeUnknown => Reported(v, sent, OutboxRepository.OutcomeUnknownRow)
        case _ => Reported(v, sent, OutboxRepository.ProviderFailedRow))
  }

  lemma UnknownAnswered(w: World, sent: ActionCommand, answer: ProviderAnswer, now: int, fail: Option<Failpoint>,
                        dies: bool)
    requires (answer.Ambiguous? || dies) && (dies <==> fail == Some(AfterProviderBeforeResult))
    ensures var r := AfterExecute(w, sent, answer, now, fail); Answered(w, r.world, sent, answer, Seen(r), dies)
  {
    SettleWrites(w, sent, OutcomeUnknown, OutboxRepository.OutcomeUnknownRow, now);
  }

  lemma RejectedAnswered(w: World, sent: ActionCommand, answer: ProviderAnswer, now: int, fail: Option<Failpoint>)
    requires answer.Rejected? && fail != Some(AfterProviderBeforeResult)
    ensures var r := AfterExecute(w, sent, answer, now, fail); Answered(w, r.world, sent, answer, Seen(r), false)
  {
    UpdateWrites(w, sent, ActionState.Failed, None, now);
  }

  lemma AcceptedIs(w: World, sent: ActionCommand, answer: ProviderAnswer, now: int, fail: Option<Failpoint>,
                   u: Eff<ActionCommand>)
    requires answer.Accepted? && fail != Some(AfterProviderBeforeResult) && u == UpdateAction(w, sent, Acknowledged, answer.resource, now)
    ensures AfterExecute(w, sent, answer, now, fail) ==
            if u.Raised? || fail == Some(AfterResultBeforeVerification) then Raised(u.world) else BeginVerify(u.world, u.value, now)
  {}

  lemma AcceptedAnswered(w: World, sent: ActionCommand, answer: ProviderAnswer, now: int, fail: Option<Failpoint>)
    requires answer.Accepted? && fail != Some(AfterProviderBeforeResult)
    ensures var r := AfterExecute(w, sent, answer, now, fail); Answered(w, r.world, sent, answer, Seen(r), false)
  {
    var u := UpdateAction(w, sent, Acknowledged, answer.resource, now);
    UpdateWrites(w, sent, Acknowledged, answer.resource, now);
    AcknowledgeWrites(w, sent, answer.resource, now);
    AcceptedIs(w, sent, answer, now, fail, u);
  }

  lemma AfterExecuteAnswers(w: World, sent: ActionCommand, answer: ProviderAnswer, now: int, fail: Option<Failpoint>,
                            r: Eff<Next>, dies: bool)
    requires r == AfterExecute(w, sent, answer, now, fail) && (dies <==> fail == Some(AfterProviderBeforeResult))
    ensures Answers(w, r.world, sent, answer, Seen(r), dies)
  {
    AfterExecuteKeeps(w, sent, answer, now, fail);
    if answer.Ambiguous? || dies { UnknownAnswered(w, sent, answer, now, fail, dies); }
    else if answer.Rejected? { RejectedAnswered(w, sent, answer, now, fail); }
    else { AcceptedAnswered(w, sent, answer, now, fail); }
  }

  /** A safe read decides an uncertain command the same way: present, it is acknowledged and goes on to its
      verification; absent, it fails; otherwise it waits for reconciliation.  The provider is told nothing. */
  ghost predicate Reconciles(w: World, v: World, a: ActionCommand, answer: ReconcileAnswer, next: Option<Next>) {
    Keeps(w, v) && Reconciled(w, v, a, answer, next)
  }

  function StateFound(answer: ReconcileAnswer): ActionState {
    match answer case Present(_) => Acknowledged case Absent => ActionState.Failed case Unknown => ReconciliationRequired
  }

  ghost predicate Reconciled(w: World, v: World, a: ActionCommand, answer: ReconcileAnswer, next: Option<Next>) {
    && v.checks == w.checks
    && (if answer.Unknown? && a.state.ReconciliationRequired? then v == w.(outbox := v.outbox) else WroteOne(w, v, a, StateFound(answer)))
    && (next.Some? && answer.Present? ==>
        a.commandId in v.actions.byId && next.value == AwaitVerify(v.actions.byId[a.commandId]) && UnderVerification(w, v, a.incidentId)
        && v.actions.byId[a.commandId].providerResourceId == if answer.resource.Some? then answer.resource else a.providerResourceId)
    && (next.Some? && !answer.Present? ==> next.value == Returned)
    && (next.Some? && answer.Absent? ==> Reported(v, a, OutboxRepository.ProviderFailedRow))
    && (next.Some? && answer.Unknown? ==>
        OutboxRepository.OutExecution(a.commandId, if a.state.ReconciliationRequired? then a.version else a.version + 1,
                                      OutboxRepository.OutcomeUnknownRow) in v.outbox)
  }

  lemma AfterReconcileReconciled(w: World, a: ActionCommand, answer: ReconcileAnswer, now: int)
    ensures var r := AfterReconcile(w, a, answer, now); Reconciled(w, r.world, a, answer, Seen(r))
  {
    match answer
    case Present(resource) => AcknowledgeWrites(w, a, resource.Or(a.providerResourceId), now);
    case Absent => SettleWrites(w, a, ActionState.Failed, OutboxRepository.ProviderFailedRow, now);
    case Unknown => UnknownReconciled(w, a, now);
  }

  lemma UnknownReconciled(w: World, a: ActionCommand, now: int)
    ensures var r := AfterReconcile(w, a, ReconcileAnswer.Unknown, now); Reconciled(w, r.world, a, ReconcileAnswer.Unknown, Seen(r))
  {
    if !a.state.ReconciliationRequired? {
      SettleWrites(w, a, ReconciliationRequired, OutboxRepository.OutcomeUnknownRow, now);
      assert AfterReconcile(w, a, ReconcileAnswer.Unknown, now) == Settle(w, a, ReconciliationRequired,
                                                                          OutboxRepository.OutcomeUnknownRow, now);
    }
  }

  lemma AfterReconcileReconciles(w: World, a: ActionCommand, answer: ReconcileAnswer, now: int, r: Eff<Next>)
    requires r == AfterReconcile(w, a, answer, now)
    ensures Reconciles(w, r.world, a, answer, Seen(r))
  {
    AfterReconcileKeeps(w, a, answer, now);
    AfterReconcileReconciled(w, a, answer, now);
  }

  // ---------------------------------------------------------------- verification

  /** The resolution gate: closed, it changes nothing; open, a VERIFYING incident is resolved for a reason on record,
      and no lease of it is left, while every other lease stays. */
  ghost predicate Gates(w: World, v: World, incident: Id, plan: int) {
    && Earns(w, v) && v.actions == w.actions && v.ledger == w.ledger && v.journal == w.journal
    && if !GateOpen(w, incident, plan) then v == w
       else
         && Freed(w.leases, v.leases, incident)
         && (if InState(w, incident, Verifying) then ClosedAs(v, incident, IncidentOutcome.VerifiedImproved) else v.incidents == w.incidents)
  }

  /** All commands of the plan are SUCCESS, and an improvement of the incident is on record. */
  ghost predicate GateOpen(w: World, incident: Id, plan: int) {
    PlanSucceeded(w, incident, plan) && exists c <- w.checks :: w.checks[c].incidentId == incident && w.checks[c].improved
  }

  /** The incident holds nothing any more, and nothing else was released. */
  ghost predicate Freed(before: map<Id, Lease>, after: map<Id, Lease>, incident: Id) {
    && (forall k <- after :: !(after[k].owned && after[k].owner == incident))
    && (forall k <- before :: k in after && (before[k].owner != incident ==> after[k] == before[k]))
  }

  /** The incident is RESOLVED, and says why. */
  predicate ClosedAs(v: World, incident: Id, why: IncidentOutcome) {
    InState(v, incident, Resolved) && v.incidents.items[incident].outcome == why
  }

  lemma ReleaseAllFrees(leases: map<Id, Lease>, incident: Id)
    ensures Freed(leases, ReleaseAll(leases, incident), incident)
  {}

  lemma MaybeResolveGates(w: World, incident: Id, plan: int, now: int)
    ensures Gates(w, MaybeResolve(w, incident, plan, now), incident, plan)
  {
    MaybeResolveEarns(w, incident, plan, now);
    SucceededExactly(w, incident, plan);
    var resolved := Resolve(w, incident, Verifying, Some(Improved), IncidentOutcome.VerifiedImproved, None, now);
    ResolveMoves(w, incident, Verifying, Some(Improved), IncidentOutcome.VerifiedImproved, None, now);
    ReleaseAllFrees(w.leases, incident);
    MaybeResolveIs(w, incident, plan, now, resolved);
  }

  lemma MaybeResolveIs(w: World, incident: Id, plan: int, now: int, resolved: World)
    requires resolved == Resolve(w, incident, Verifying, Some(Improved), IncidentOutcome.VerifiedImproved, None, now)
    ensures MaybeResolve(w, incident, plan, now) ==
            if AllPlanActionsSucceeded(w, incident, plan) && SomeImproved(w, incident)
            then w.(incidents := resolved.incidents, leases := ReleaseAll(w.leases, incident)) else w
  {}

  lemma ResolveIs(w: World, id: Id, from: IncidentState, v: Option<VerificationState>, o: IncidentOutcome,
                  r: Option<RecoveryState>, now: int, w1: World)
    requires CanMove(from, Resolved) && InState(w, id, from) && w1 == MoveIncidentFrom(w, id, from, Resolved, now)
    ensures Resolve(w, id, from, v, o, r, now) == WriteIncident(w1, id, v, Some(o), r, now).world
  {}

  lemma ResolveMoves(w: World, id: Id, from: IncidentState, v: Option<VerificationState>, o: IncidentOutcome,
                     r: Option<RecoveryState>, now: int)
    requires CanMove(from, Resolved)
    ensures var u := Resolve(w, id, from, v, o, r, now);
            if InState(w, id, from) then ClosedAs(u, id, o) && (r.Some? ==> u.incidents.items[id].recovery == r.value) else u == w
  {
    if InState(w, id, from) { assert InState(MoveIncidentFrom(w, id, from, Resolved, now), id, Resolved); }
  }

  /** An improvement and, to the executor, a present resource prove the mitigation. */
  predicate Proves(verdict: VerifyAnswer) { verdict == VerifyAnswer.VerifiedImproved || verdict == VerifiedResource }

  /** Without an improvement, or with a degradation, it is refuted. */
  predicate Refutes(verdict: VerifyAnswer) { verdict == NoImprovement || verdict == VerifiedDegraded }

  /** The state under which a verdict is on record. */
  predicate RecordedAs(verdict: VerifyAnswer, state: VerificationState) {
    && (state == Improved <==> Proves(verdict)) && (state == Unchanged <==> verdict == NoImprovement)
    && (state == Degraded <==> verdict == VerifiedDegraded) && (state == InsufficientEvidence <==> verdict == Unavailable)
  }

  /** What a verdict does to its command, unless that was overtaken: proven it is SUCCESS, refuted it is to be rolled
      back, and otherwise it waits for reconciliation. */
  ghost predicate Concludes(w: World, v: World, a: ActionCommand, verdict: VerifyAnswer) {
    if Overtaken(w, a) then v.actions == w.actions
    else
      Written1(v, a) && StateIn(v, a.commandId) ==
        if Proves(verdict) then Success else if Refutes(verdict) then RollbackRequired else ReconciliationRequired
  }

  /** The verification goes on record with what it shows, and decides its command.  Whatever becomes SUCCESS or RESOLVED
      through it has its evidence on record, and a refuted mitigation is rolled back at once where that may be. */
  ghost predicate Verifies(w: World, v: World, a: ActionCommand, verdict: VerifyAnswer, s: Settings, cap: Capability,
                           next: Option<Next>, now: int, fail: Option<Failpoint>) {
    && Earns(Proven(w, Verify(a.commandId), a.incidentId, Proves(verdict), verdict == VerifyAnswer.VerifiedImproved, now), v)
    && Verify(a.commandId) in v.checks
    && var check := v.checks[Verify(a.commandId)];
    && check == Check(a.incidentId, check.state, verdict == VerifyAnswer.VerifiedImproved, now) && RecordedAs(verdict, check.state)
    && (a.incidentId in w.incidents.items ==> Displays(v, a.incidentId, check.state))
    && if a.incidentId !in w.incidents.items || fail == Some(AfterVerificationBeforePublication)
       then v.actions == w.actions && v.journal.calls == w.journal.calls && next.None?
       else Decided(w, v, a, verdict, s, cap, next, now, fail)
  }

  /** The incident displays this verification. */
  predicate Displays(w: World, incident: Id, state: VerificationState) {
    incident in w.incidents.items && w.incidents.items[incident].verification == state
  }

  ghost predicate Decided(w: World, v: World, a: ActionCommand, verdict: VerifyAnswer, s: Settings, cap: Capability,
                          next: Option<Next>, now: int, fail: Option<Failpoint>) {
    && Concludes(w, v, a, verdict)
    && (if !Refutes(verdict) || Overtaken(w, a) then Ends(w, v, next, a, false)
        else w.actions.Indexed() && Stored(w, a) ==> EndsFor(w, v, next, a, MayRollBack(w, a, s, cap, now, fail)))
    && (next.Some? ==> !Overtaken(w, a))
    && (next.Some? && Proves(verdict) ==> Reported(v, a, OutboxRepository.VerifiedRow))
    && (next.Some? && verdict == Unavailable ==> Reported(v, a, OutboxRepository.VerificationUnavailableRow))
  }

  /** The same for the later value of `a` that is stored now. */
  ghost predicate EndsFor(w: World, v: World, next: Option<Next>, a: ActionCommand, reached: bool) {
    a.commandId in v.actions.byId && Ends(w, v, next, v.actions.byId[a.commandId], reached)
  }

  lemma CheckStays(w: World, a: ActionCommand, verdict: VerifyAnswer, s: Settings, cap: Capability, freshId: Id,
                   now: int, fail: Option<Failpoint>)
    requires w.actions.Filed()
    ensures Publish(w, a, VerificationOf(verdict), s, cap, freshId, now, fail).world.checks == w.checks
  {
    var state := VerificationOf(verdict);
    if state.Unchanged? || state.Degraded? {
      var u := UpdateAction(w, a, RollbackRequired, None, now);
      if u.Ok? { RollbackKeepsChecks(u.world, u.value, s, cap, freshId, now, fail); }
    } else if state.Improved? {
      SuccessKeepsChecks(w, a, s, cap, freshId, now, fail);
    }
  }

  lemma SuccessKeepsChecks(w: World, a: ActionCommand, s: Settings, cap: Capability, freshId: Id, now: int,
                           fail: Option<Failpoint>)
    requires w.actions.Filed()
    ensures Publish(w, a, Improved, s, cap, freshId, now, fail).world.checks == w.checks
  {}

  lemma RollbackKeepsChecks(w: World, a: ActionCommand, s: Settings, cap: Capability, freshId: Id, now: int,
                            fail: Option<Failpoint>)
    requires w.actions.Filed()
    ensures BeginRollback(w, a, s, cap, freshId, now, fail).world.checks == w.checks
  {
    RefusalKeepsChecks(w, a, now);
    if IsPlanType(a.commandType) {
      var (store, r) := w.actions.CreateOrGet(RollbackCommand(a, freshId, now));
      UndertakeKeepsChecks(w.(actions := store), a, r, now, fail);
    }
  }

  lemma RefusalKeepsChecks(w: World, a: ActionCommand, now: int)
    ensures RefuseRollback(w, a, now).world.checks == w.checks
  {}

  lemma ClaimKeepsChecks(w: World, a: ActionCommand, sent: ActionCommand, now: int, fail: Option<Failpoint>)
    ensures ClaimedRollback(w, a, sent, now, fail).world.checks == w.checks
  {
    var r := SaveRecovery(w, a.incidentId, Releasing, now);
    assert r.world.checks == w.checks;
    SettleKeepsChecks(r.world, sent, now);
  }

  lemma SettleKeepsChecks(w: World, sent: ActionCommand, now: int)
    ensures Settle(w, sent, OutcomeUnknown, OutboxRepository.OutcomeUnknownRow, now).world.checks == w.checks
  {}

  /** How a claim goes on. */
  lemma UndertakeIs(w: World, a: ActionCommand, r: ActionCommand, now: int, fail: Option<Failpoint>,
                    u: Eff<ActionCommand>)
    requires u == UpdateAction(w, r, ActionState.Sent, None, now)
    ensures var t := Undertake(w, a, r, now, fail);
            if r.state.Ready? && u.Ok? then t == ClaimedRollback(u.world, a, u.value, now, fail)
            else t.world == w.(actions := t.world.actions) && (t.Ok? ==> t.value.Returned?)
  {}

  lemma UndertakeKeepsChecks(w: World, a: ActionCommand, r: ActionCommand, now: int, fail: Option<Failpoint>)
    ensures Undertake(w, a, r, now, fail).world.checks == w.checks
  {
    var u := UpdateAction(w, r, ActionState.Sent, None, now);
    UndertakeIs(w, a, r, now, fail, u);
    if u.Ok? { ClaimKeepsChecks(u.world, a, u.value, now, fail); }
  }

  /** A proven mitigation. */
  lemma ProofDecides(w: World, a: ActionCommand, verdict: VerifyAnswer, s: Settings, cap: Capability, freshId: Id,
                     now: int,
                     fail: Option<Failpoint>)
    requires w.actions.Filed() && Proves(verdict)
    ensures var r := Publish(w, a, Improved, s, cap, freshId, now, fail); Decided(w, r.world, a, verdict, s, cap, Seen(r), now, fail)
  {
    var u := UpdateAction(w, a, Success, None, now);
    UpdateWrites(w, a, Success, None, now);
    ProvenIs(w, a, s, cap, freshId, now, fail, u);
    if u.Ok? { MaybeResolveAside(u.world, a.incidentId, a.planVersion, now); }
  }

  lemma ProvenIs(w: World, a: ActionCommand, s: Settings, cap: Capability, freshId: Id, now: int,
                 fail: Option<Failpoint>,
                 u: Eff<ActionCommand>)
    requires w.actions.Filed() && u == UpdateAction(w, a, Success, None, now)
    ensures var r := Publish(w, a, Improved, s, cap, freshId, now, fail);
            if u.Raised? then r == Raised(u.world)
            else
              && r.world == MaybeResolve(u.world, a.incidentId, a.planVersion, now).(outbox := r.world.outbox)
              && (r.Ok? ==> r.value == Returned
                            && OutboxRepository.OutExecution(u.value.commandId, u.value.version, OutboxRepository.VerifiedRow) in r.world.outbox)
  {}

  lemma MaybeResolveAside(w: World, incident: Id, plan: int, now: int)
    ensures var v := MaybeResolve(w, incident, plan, now); v == w.(incidents := v.incidents, leases := v.leases)
  {}

  /** A refuted mitigation. */
  lemma RefutationDecides(w: World, a: ActionCommand, verdict: VerifyAnswer, state: VerificationState, s: Settings,
                          cap: Capability, freshId: Id, now: int, fail: Option<Failpoint>)
    requires w.actions.Filed() && freshId !in w.actions.byId && Refutes(verdict) && (state.Unchanged? || state.Degraded?)
    ensures var r := Publish(w, a, state, s, cap, freshId, now, fail); Decided(w, r.world, a, verdict, s, cap, Seen(r), now, fail)
  {
    var u := UpdateAction(w, a, RollbackRequired, None, now);
    UpdateWrites(w, a, RollbackRequired, None, now);
    RefutedIs(w, a, state, s, cap, freshId, now, fail, u);
    if u.Ok? {
      BeginRollbackLeaves(u.world, u.value, s, cap, freshId, now, fail, a.commandId);
      BeginRollbackEnds(u.world, u.value, s, cap, freshId, now, fail);
      if w.actions.Indexed() && Stored(w, a) { DoomedMayRollBack(w, a, s, cap, now, fail, u.world, u.value); }
      DoomedDecides(w, a, verdict, s, cap, now, fail, u.world, u.value, BeginRollback(u.world, u.value, s, cap, freshId, now, fail));
    }
  }

  lemma RefutedIs(w: World, a: ActionCommand, state: VerificationState, s: Settings, cap: Capability, freshId: Id,
                  now: int, fail: Option<Failpoint>, u: Eff<ActionCommand>)
    requires w.actions.Filed() && (state.Unchanged? || state.Degraded?) && u == UpdateAction(w, a, RollbackRequired, None, now)
    ensures u.world.actions.Filed()
    ensures Publish(w, a, state, s, cap, freshId, now, fail) ==
            if u.Raised? then Raised(u.world) else BeginRollback(u.world, u.value, s, cap, freshId, now, fail)
  {}

  /** A command may be rolled back when it is marked for that, exactly when it might before. */
  lemma DoomedMayRollBack(w: World, a: ActionCommand, s: Settings, cap: Capability, now: int, fail: Option<Failpoint>,
                          w1: World, doomed: ActionCommand)
    requires w.actions.Indexed() && Stored(w, a) && UpdateAction(w, a, RollbackRequired, None, now) == Ok(w1, doomed)
    ensures MayRollBack(w1, doomed, s, cap, now, fail) <==> MayRollBack(w, a, s, cap, now, fail)
  {
    forall u | Reverses(u, a.commandType)
      ensures Unsent(w1, doomed, u) <==> Unsent(w, a, u)
    {
      assert a.Key() != a.Key().(commandType := u);
    }
  }

  lemma DoomedDecides(w: World, a: ActionCommand, verdict: VerifyAnswer, s: Settings, cap: Capability, now: int,
                      fail: Option<Failpoint>, w1: World, doomed: ActionCommand, r: Eff<Next>)
    requires Refutes(verdict) && !Overtaken(w, a) && w1.journal == w.journal
    requires Written1(w1, a) && StateIn(w1, a.commandId) == RollbackRequired && doomed == w1.actions.byId[a.commandId]
             && doomed.commandId == a.commandId
    requires a.commandId in r.world.actions.byId && r.world.actions.byId[a.commandId] == doomed
    requires Ends(w1, r.world, Seen(r), doomed, MayRollBack(w1, doomed, s, cap, now, fail))
    requires w.actions.Indexed() && Stored(w, a) ==>
               (MayRollBack(w1, doomed, s, cap, now, fail) <==> MayRollBack(w, a, s, cap, now, fail))
    ensures Decided(w, r.world, a, verdict, s, cap, Seen(r), now, fail)
  {}

  /** A mitigation about which nothing was found out. */
  lemma UnavailableDecides(w: World, a: ActionCommand, s: Settings, cap: Capability, freshId: Id, now: int,
                           fail: Option<Failpoint>)
    requires w.actions.Filed()
    ensures var r := Publish(w, a, InsufficientEvidence, s, cap, freshId, now, fail);
            Decided(w, r.world, a, Unavailable, s, cap, Seen(r), now, fail)
  {
    SettleWrites(w, a, ReconciliationRequired, OutboxRepository.VerificationUnavailableRow, now);
  }

  lemma PublishDecides(w: World, a: ActionCommand, verdict: VerifyAnswer, s: Settings, cap: Capability, freshId: Id,
                       now: int, fail: Option<Failpoint>, state: VerificationState)
    requires w.actions.Filed() && freshId !in w.actions.byId && state == VerificationOf(verdict)
    ensures var r := Publish(w, a, state, s, cap, freshId, now, fail); Decided(w, r.world, a, verdict, s, cap, Seen(r), now, fail)
  {
    match verdict
    case VerifiedImproved => ProofDecides(w, a, verdict, s, cap, freshId, now, fail);
    case VerifiedResource => ProofDecides(w, a, verdict, s, cap, freshId, now, fail);
    case NoImprovement => RefutationDecides(w, a, verdict, state, s, cap, freshId, now, fail);
    case VerifiedDegraded => RefutationDecides(w, a, verdict, state, s, cap, freshId, now, fail);
    case Unavailable => UnavailableDecides(w, a, s, cap, freshId, now, fail);
  }

  /** The record of a verification, and the incident's field for it. */
  function VerdictRecorded(w: World, a: ActionCommand, verdict: VerifyAnswer, state: VerificationState,
                           now: int): Eff<()> {
    WriteIncident(SaveCheck(w, Verify(a.commandId), a.incidentId, verdict, state, now), a.incidentId, Some(state), None, None, now)
  }

  /** It changes no command and calls nobody. */
  lemma RecordAside(w: World, a: ActionCommand, verdict: VerifyAnswer, state: VerificationState, now: int)
    ensures var e := VerdictRecorded(w, a, verdict, state, now);
            && e.world == w.(incidents := e.world.incidents, checks := e.world.checks, journal := e.world.journal)
            && e.world.journal.calls == w.journal.calls && (e.Ok? <==> a.incidentId in w.incidents.items)
            && Verify(a.commandId) in e.world.checks
            && e.world.checks[Verify(a.commandId)] == Check(a.incidentId, state, verdict == VerifyAnswer.VerifiedImproved, now)
            && (e.Ok? ==> Displays(e.world, a.incidentId, state))
  {}

  // What follows from a verdict leaves it displayed.

  lemma MoveDisplays(w: World, id: Id, from: IncidentState, to: IncidentState, now: int, incident: Id,
                     state: VerificationState)
    requires CanMove(from, to) && Displays(w, incident, state)
    ensures Displays(MoveIncidentFrom(w, id, from, to, now), incident, state)
  {}

  lemma SaveRecoveryDisplays(w: World, id: Id, recovery: RecoveryState, now: int, incident: Id,
                             state: VerificationState)
    requires Displays(w, incident, state)
    ensures Displays(SaveRecovery(w, id, recovery, now).world, incident, state)
  {}

  lemma SettleDisplays(w: World, a: ActionCommand, to: ActionState, status: OutboxRepository.ExecutionStatus, now: int)
    ensures Settle(w, a, to, status, now).world.incidents == w.incidents
  {}

  lemma ClaimedDisplays(w: World, a: ActionCommand, sent: ActionCommand, now: int, fail: Option<Failpoint>,
                        state: VerificationState)
    requires Displays(w, a.incidentId, state)
    ensures Displays(ClaimedRollback(w, a, sent, now, fail).world, a.incidentId, state)
  {
    var saved := SaveRecovery(w, a.incidentId, Releasing, now);
    SaveRecoveryDisplays(w, a.incidentId, Releasing, now, a.incidentId, state);
    ClaimedIs(w, a, sent, now, fail, saved);
    SettleDisplays(saved.world, sent, OutcomeUnknown, OutboxRepository.OutcomeUnknownRow, now);
  }

  lemma UndertakeDisplays(w: World, a: ActionCommand, r: ActionCommand, now: int, fail: Option<Failpoint>,
                          state: VerificationState)
    requires Displays(w, a.incidentId, state)
    ensures Displays(Undertake(w, a, r, now, fail).world, a.incidentId, state)
  {
    var u := UpdateAction(w, r, ActionState.Sent, None, now);
    UndertakeIs(w, a, r, now, fail, u);
    if u.Ok? { ClaimedDisplays(u.world, a, u.value, now, fail, state); }
  }

  lemma RefusalDisplays(w: World, a: ActionCommand, now: int, state: VerificationState)
    requires Displays(w, a.incidentId, state)
    ensures Displays(RefuseRollback(w, a, now).world, a.incidentId, state)
  {
    var saved := SaveRecovery(w, a.incidentId, RecoveryState.Failed, now);
    SaveRecoveryDisplays(w, a.incidentId, RecoveryState.Failed, now, a.incidentId, state);
    if saved.Ok? { MoveDisplays(saved.world, a.incidentId, Verifying, Escalated, now, a.incidentId, state); }
  }

  lemma BeginRollbackDisplays(w: World, a: ActionCommand, s: Settings, cap: Capability, freshId: Id, now: int,
                              fail: Option<Failpoint>, state: VerificationState)
    requires w.actions.Filed() && Displays(w, a.incidentId, state)
    ensures Displays(BeginRollback(w, a, s, cap, freshId, now, fail).world, a.incidentId, state)
  {
    BeginRollbackGoes(w, a, s, cap, freshId, now, fail);
    RefusalDisplays(w, a, now, state);
    if IsPlanType(a.commandType) {
      var (store, c) := w.actions.CreateOrGet(RollbackCommand(a, freshId, now));
      UndertakeDisplays(w.(actions := store), a, c, now, fail, state);
    }
  }

  /** The three ways a rollback begins. */
  lemma BeginRollbackGoes(w: World, a: ActionCommand, s: Settings, cap: Capability, freshId: Id, now: int,
                          fail: Option<Failpoint>)
    requires w.actions.Filed()
    ensures var r := BeginRollback(w, a, s, cap, freshId, now, fail);
            || r.world.incidents == w.incidents
            || r == RefuseRollback(w, a, now)
            || (IsPlanType(a.commandType)
                && var (store, c) := w.actions.CreateOrGet(RollbackCommand(a, freshId, now));
                   r == Undertake(w.(actions := store), a, c, now, fail))
  {}

  lemma MaybeResolveDisplays(w: World, incident: Id, plan: int, now: int)
    requires Displays(w, incident, Improved)
    ensures Displays(MaybeResolve(w, incident, plan, now), incident, Improved)
  {
    MoveDisplays(w, incident, Verifying, Resolved, now, incident, Improved);
  }

  lemma PublishDisplays(w: World, a: ActionCommand, state: VerificationState, s: Settings, cap: Capability, freshId: Id,
                        now: int, fail: Option<Failpoint>)
    requires w.actions.Filed() && Displays(w, a.incidentId, state)
    ensures Displays(Publish(w, a, state, s, cap, freshId, now, fail).world, a.incidentId, state)
  {
    if state.Improved? {
      var u := UpdateAction(w, a, Success, None, now);
      ProvenIs(w, a, s, cap, freshId, now, fail, u);
      if u.Ok? { MaybeResolveDisplays(u.world, a.incidentId, a.planVersion, now); }
    } else if state.Unchanged? || state.Degraded? {
      var u := UpdateAction(w, a, RollbackRequired, None, now);
      RefutedIs(w, a, state, s, cap, freshId, now, fail, u);
      if u.Ok? { BeginRollbackDisplays(u.world, u.value, s, cap, freshId, now, fail, state); }
    } else {
      SettleDisplays(w, a, ReconciliationRequired, OutboxRepository.VerificationUnavailableRow, now);
    }
  }

  lemma VerdictRecordedAs(verdict: VerifyAnswer)
    ensures RecordedAs(verdict, VerificationOf(verdict))
  {}

  /** What a record leaves alone does not matter to what a verdict decides. */
  lemma DecidedAside(w: World, w1: World, r: Eff<Next>, a: ActionCommand, verdict: VerifyAnswer, s: Settings,
                     cap: Capability, now: int, fail: Option<Failpoint>)
    requires w1 == w.(incidents := w1.incidents, checks := w1.checks, journal := w1.journal) && w1.journal.calls == w.journal.calls
    requires Decided(w1, r.world, a, verdict, s, cap, Seen(r), now, fail)
    ensures Decided(w, r.world, a, verdict, s, cap, Seen(r), now, fail)
  {
    if Refutes(verdict) && !Overtaken(w, a) && w.actions.Indexed() && Stored(w, a) { MayRollBackAside(w, w1, a, s, cap, now, fail); }
  }

  lemma MayRollBackAside(w: World, w1: World, a: ActionCommand, s: Settings, cap: Capability, now: int,
                         fail: Option<Failpoint>)
    requires w1 == w.(incidents := w1.incidents, checks := w1.checks, journal := w1.journal)
    ensures MayRollBack(w1, a, s, cap, now, fail) <==> MayRollBack(w, a, s, cap, now, fail)
  {
    forall u
      ensures Unsent(w1, a, u) <==> Unsent(w, a, u)
    {}
  }

  lemma AfterVerifyVerifies(w: World, a: ActionCommand, verdict: VerifyAnswer, s: Settings, cap: Capability,
                            freshId: Id, now: int, fail: Option<Failpoint>, r: Eff<Next>)
    requires w.actions.Filed() && freshId !in w.actions.byId && r == AfterVerify(w, a, verdict, s, cap, freshId, now, fail)
    ensures Verifies(w, r.world, a, verdict, s, cap, Seen(r), now, fail)
  {
    var state := VerificationOf(verdict);
    AfterVerifyEarns(w, a, verdict, s, cap, freshId, now, fail);
    RecordAside(w, a, verdict, state, now);
    VerdictRecordedAs(verdict);
    var e := VerdictRecorded(w, a, verdict, state, now);
    AfterVerifyIs(w, a, verdict, s, cap, freshId, now, fail, e, state);
    if e.Ok? && fail != Some(AfterVerificationBeforePublication) {
      CheckStays(e.world, a, verdict, s, cap, freshId, now, fail);
      PublishDisplays(e.world, a, state, s, cap, freshId, now, fail);
      PublishDecides(e.world, a, verdict, s, cap, freshId, now, fail, state);
      DecidedAside(w, e.world, r, a, verdict, s, cap, now, fail);
    }
  }

  lemma AfterVerifyIs(w: World, a: ActionCommand, verdict: VerifyAnswer, s: Settings, cap: Capability, freshId: Id,
                      now: int, fail: Option<Failpoint>, e: Eff<()>, state: VerificationState)
    requires w.actions.Filed() && state == VerificationOf(verdict)
    requires e == VerdictRecorded(w, a, verdict, state, now) && e.world.actions == w.actions
    ensures AfterVerify(w, a, verdict, s, cap, freshId, now, fail) ==
            if e.Raised? || fail == Some(AfterVerificationBeforePublication) then Raised(e.world)
            else Publish(e.world, a, state, s, cap, freshId, now, fail)
  {}

  // ---------------------------------------------------------------- rollback

  /** `u` undoes what `t` does. */
  predicate Reverses(u: CommandType, t: CommandType) {
    (u == QodRelease && t == QodPlan) || (u == GeofenceDelete && t == GeofencePlan) || (u == SliceDetach && t == SliceAttachPlan)
  }

  /** The command that undoes `a` under this key has not been sent yet. */
  predicate Unsent(w: World, a: ActionCommand, u: CommandType) {
    var key := IdempotencyKey(a.incidentId, u, a.resourceKey, a.planVersion);
    key in w.actions.byKey && w.actions.byKey[key] in w.actions.byId ==> w.actions.byId[w.actions.byKey[key]].state == Ready
  }

  /** A rollback that begins may end in a call: no recovery is further than RELEASING, and the lease is live. */
  ghost predicate MayRelease(w: World, a: ActionCommand, now: int, fail: Option<Failpoint>) {
    && (a.incidentId in w.recovery ==> w.recovery[a.incidentId].state == RecoveryState.Pending || w.recovery[a.incidentId].state == Releasing)
    && fail != Some(AfterRollbackSentBeforeProvider) && Leased(w, a, now)
  }

  /** When `_rollback` of `a` gets through to the provider. */
  ghost predicate MayRollBack(w: World, a: ActionCommand, s: Settings, cap: Capability, now: int,
                              fail: Option<Failpoint>) {
    && Writable(s) && cap.rollback && a.providerResourceId.Some? && MayRelease(w, a, now, fail)
    && exists u :: Reverses(u, a.commandType) && Unsent(w, a, u)
  }

  /** The way to `adapter.rollback` charges, executes and resolves nothing, and it ends there exactly when it may:
      then the one command that undoes `a` is SENT.  A rollback that the adapter does not offer, or that has no
      resource to release, is a failed recovery, and an incident under verification goes to an operator. */
  ghost predicate Undertakes(w: World, v: World, a: ActionCommand, s: Settings, cap: Capability, next: Option<Next>,
                             now: int, fail: Option<Failpoint>) {
    && Keeps(w, v) && Continues(w, v)
    && (next.Some? ==> Suspends(v, next.value))
    && Ends(w, v, next, a, MayRollBack(w, a, s, cap, now, fail))
    && (next.Some? && next.value.AwaitRollback? && w.actions.Indexed() ==> IsUndoing(next.value.sent, a))
    && (next.Some? && Writable(s) && (!cap.rollback || a.providerResourceId.None?) ==> HandedOver(w, v, a.incidentId))
    && (next.Some? && (!Writable(s) || !cap.rollback || a.providerResourceId.None?) ==>
        OutboxRepository.OutExecution(a.commandId, a.version, OutboxRepository.RecoveryRequiredRow) in v.outbox)
    && (!Writable(s) ==> v == w.(outbox := v.outbox))
    && (next.Some? && w.actions.Indexed() && Writable(s) && cap.rollback && a.providerResourceId.Some? ==>
        forall u :: Reverses(u, a.commandType) ==> UndoingIs(w, v, a, u, next.value))
  }

  /** What becomes of the command that undoes `a`.  One that was left SENT has an unknown outcome, one that is further
      is left alone, and one that is new or READY is claimed, with the recovery RELEASING: it stays SENT on the way to
      the provider, and without a lease its outcome is unknown. */
  predicate UndoingIs(w: World, v: World, a: ActionCommand, u: CommandType, next: Next) {
    var key := IdempotencyKey(a.incidentId, u, a.resourceKey, a.planVersion);
    && key in v.actions.byKey && v.actions.byKey[key] in v.actions.byId
    && var d := v.actions.byId[v.actions.byKey[key]];
    && if key in w.actions.byKey && w.actions.byKey[key] in w.actions.byId && w.actions.byId[w.actions.byKey[key]].state != Ready then
         if w.actions.byId[w.actions.byKey[key]].state == Sent then d.state == OutcomeUnknown && v == w.(actions := v.actions) else v == w
       else
         && a.incidentId in v.recovery && v.recovery[a.incidentId].state == Releasing
         && d.state == if next.AwaitRollback? then ActionState.Sent else OutcomeUnknown
  }

  predicate IsUndoing(sent: ActionCommand, a: ActionCommand) {
    && Reverses(sent.commandType, a.commandType) && sent.state == Sent
    && sent.incidentId == a.incidentId && sent.resourceKey == a.resourceKey && sent.planVersion == a.planVersion
  }

  predicate RecoveryFailed(w: World, incident: Id) {
    incident in w.recovery && w.recovery[incident].state == RecoveryState.Failed
  }

  predicate HandedOver(w: World, v: World, incident: Id) {
    && v.actions == w.actions && RecoveryFailed(v, incident)
    && (InState(w, incident, Verifying) ==> InState(v, incident, Escalated))
  }

  /** How the way to the provider ends: with one call, or with none. */
  ghost predicate Ends(w: World, v: World, next: Option<Next>, a: ActionCommand, reached: bool) {
    if reached then
      && next.Some? && next.value.AwaitRollback? && next.value.original == a
      && v.journal.calls == w.journal.calls + [RollbackCall(a.commandId)]
    else (next.Some? ==> next.value == Returned) && v.journal.calls == w.journal.calls
  }

  lemma RecoveryOpens(w: World, incident: Id, now: int)
    ensures SaveRecovery(w, incident, Releasing, now).Ok? <==>
            (incident in w.recovery ==> w.recovery[incident].state == RecoveryState.Pending || w.recovery[incident].state == Releasing)
  {
    var r := SaveForward(Lookup(w.recovery, incident), Releasing);
    assert r.Some? <==> ValidForward(StateOf(Lookup(w.recovery, incident)), Releasing);
  }

  lemma ClaimedIs(w: World, a: ActionCommand, sent: ActionCommand, now: int, fail: Option<Failpoint>, saved: Eff<()>)
    requires saved == SaveRecovery(w, a.incidentId, Releasing, now)
    ensures saved.world.actions == w.actions && saved.world.journal == w.journal && saved.world.leases == w.leases
    ensures ClaimedRollback(w, a, sent, now, fail) ==
            if saved.Raised? || fail == Some(AfterRollbackSentBeforeProvider) then Raised(saved.world)
            else if !OwnershipCurrent(saved.world, a, now) then
              Settle(saved.world, sent, OutcomeUnknown, OutboxRepository.OutcomeUnknownRow, now)
            else
              Ok(saved.world.(journal := w.journal.(calls := w.journal.calls + [RollbackCall(a.commandId)])), AwaitRollback(a, sent))
  {}

  lemma ClaimedRollbackEnds(w: World, a: ActionCommand, sent: ActionCommand, now: int, fail: Option<Failpoint>)
    ensures var r := ClaimedRollback(w, a, sent, now, fail);
            Ends(w, r.world, Seen(r), a, MayRelease(w, a, now, fail)) && (r.Ok? && r.value.AwaitRollback? ==> r.value.sent == sent)
  {
    var saved := SaveRecovery(w, a.incidentId, Releasing, now);
    RecoveryOpens(w, a.incidentId, now);
    ClaimedIs(w, a, sent, now, fail, saved);
    if saved.Ok? { SettleWrites(saved.world, sent, OutcomeUnknown, OutboxRepository.OutcomeUnknownRow, now); }
  }

  lemma UndertakeEnds(w: World, a: ActionCommand, r: ActionCommand, now: int, fail: Option<Failpoint>)
    requires Stored(w, r)
    ensures var t := Undertake(w, a, r, now, fail);
            && Ends(w, t.world, Seen(t), a, r.state.Ready? && MayRelease(w, a, now, fail))
            && (t.Ok? && t.value.AwaitRollback? ==> t.value.sent.Key() == r.Key() && t.value.sent.state.Sent?)
  {
    var u := UpdateAction(w, r, ActionState.Sent, None, now);
    UpdateWrites(w, r, ActionState.Sent, None, now);
    UndertakeIs(w, a, r, now, fail, u);
    if r.state.Ready? { ClaimedRollbackEnds(u.world, a, u.value, now, fail); }
  }

  lemma ClaimedLeavesIn(w: World, a: ActionCommand, sent: ActionCommand, now: int, fail: Option<Failpoint>)
    requires Stored(w, sent) && sent.state.Sent?
    ensures var r := ClaimedRollback(w, a, sent, now, fail);
            r.Ok? ==>
              && a.incidentId in r.world.recovery && r.world.recovery[a.incidentId].state == Releasing
              && r.world.actions.byKey == w.actions.byKey && sent.commandId in r.world.actions.byId
              && StateIn(r.world, sent.commandId) == if r.value.AwaitRollback? then ActionState.Sent else OutcomeUnknown
  {
    var saved := SaveRecovery(w, a.incidentId, Releasing, now);
    ClaimedIs(w, a, sent, now, fail, saved);
    SaveRecoverySaves(w, a.incidentId, Releasing, now);
    if saved.Ok? { SettleSettles(saved.world, sent, OutcomeUnknown, OutboxRepository.OutcomeUnknownRow, now); }
  }

  lemma SettleSettles(w: World, a: ActionCommand, state: ActionState, status: OutboxRepository.ExecutionStatus,
                      now: int)
    requires Stored(w, a)
    ensures var r := Settle(w, a, state, status, now);
            && r.world == w.(actions := r.world.actions, outbox := r.world.outbox) && r.world.actions.byKey == w.actions.byKey
            && a.commandId in r.world.actions.byId && StateIn(r.world, a.commandId) == state && (r.Ok? ==> r.value == Returned)
  {}

  /** What `Undertake` leaves of the command that undoes. */
  predicate UndertakenAs(w: World, v: World, incident: Id, r: ActionCommand, next: Next) {
    && v.actions.byKey == w.actions.byKey && r.commandId in v.actions.byId
    && if r.state.Sent? then StateIn(v, r.commandId) == OutcomeUnknown && v == w.(actions := v.actions)
       else if !r.state.Ready? then v == w
       else
         && incident in v.recovery && v.recovery[incident].state == Releasing
         && StateIn(v, r.commandId) == if next.AwaitRollback? then ActionState.Sent else OutcomeUnknown
  }

  lemma UndertakeLeavesIn(w: World, a: ActionCommand, r: ActionCommand, now: int, fail: Option<Failpoint>)
    requires Stored(w, r)
    ensures var t := Undertake(w, a, r, now, fail); t.Ok? ==> UndertakenAs(w, t.world, a.incidentId, r, t.value)
  {
    var u := UpdateAction(w, r, ActionState.Sent, None, now);
    UpdateWrites(w, r, ActionState.Sent, None, now);
    UpdateWrites(w, r, OutcomeUnknown, None, now);
    UndertakeIs(w, a, r, now, fail, u);
    if r.state.Ready? {
      assert u.world.actions.byKey == w.actions.byKey;
      ClaimedLeavesIn(u.world, a, u.value, now, fail);
    }
  }

  lemma BeginRollbackLeavesIn(w: World, a: ActionCommand, s: Settings, cap: Capability, freshId: Id, now: int,
                              fail: Option<Failpoint>)
    requires w.actions.Indexed() && w.actions.Filed() && freshId !in w.actions.byId && IsPlanType(a.commandType)
    requires Writable(s) && cap.rollback && a.providerResourceId.Some?
    ensures var r := BeginRollback(w, a, s, cap, freshId, now, fail);
            r.Ok? ==> forall u :: Reverses(u, a.commandType) ==> UndoingIs(w, r.world, a, u, r.value)
  {
    var (store, c) := w.actions.CreateOrGet(RollbackCommand(a, freshId, now));
    var r := BeginRollback(w, a, s, cap, freshId, now, fail);
    BeginRollbackIs(w, a, s, cap, freshId, now, fail, store, c);
    UndertakeLeavesIn(w.(actions := store), a, c, now, fail);
    forall u | r.Ok? && Reverses(u, a.commandType)
      ensures UndoingIs(w, r.world, a, u, r.value)
    {
      CreatedAs(w, a, freshId, now, store, c, u);
      UndertakenIs(w, store, a, c, u, r.world, r.value);
    }
  }

  lemma CreatedAs(w: World, a: ActionCommand, freshId: Id, now: int, store: ActionStore, c: ActionCommand,
                  u: CommandType)
    requires w.actions.Filed() && IsPlanType(a.commandType) && (store, c) == w.actions.CreateOrGet(RollbackCommand(a, freshId, now))
    requires Reverses(u, a.commandType)
    ensures var key := IdempotencyKey(a.incidentId, u, a.resourceKey, a.planVersion);
            && key in store.byKey && store.byKey[key] in store.byId && store.byId[store.byKey[key]] == c
            && store.byKey[key] == c.commandId
            && if key in w.actions.byKey then store == w.actions && w.actions.byKey[key] in w.actions.byId else c.state == Ready
  {}

  lemma UndertakenIs(w: World, store: ActionStore, a: ActionCommand, c: ActionCommand, u: CommandType, v: World,
                     next: Next)
    requires var key := IdempotencyKey(a.incidentId, u, a.resourceKey, a.planVersion);
             && key in store.byKey && store.byKey[key] in store.byId && store.byId[store.byKey[key]] == c
             && store.byKey[key] == c.commandId
             && if key in w.actions.byKey then store == w.actions && w.actions.byKey[key] in w.actions.byId else c.state == Ready
    requires UndertakenAs(w.(actions := store), v, a.incidentId, c, next)
    ensures UndoingIs(w, v, a, u, next)
  {}

  lemma RefusalEnds(w: World, a: ActionCommand, now: int)
    ensures var r := RefuseRollback(w, a, now);
            && r.world.journal == w.journal && r.world.actions == w.actions
            && (r.Ok? ==>
                && r.value.Returned? && HandedOver(w, r.world, a.incidentId)
                && OutboxRepository.OutExecution(a.commandId, a.version, OutboxRepository.RecoveryRequiredRow) in r.world.outbox)
  {
    SaveRecoverySaves(w, a.incidentId, RecoveryState.Failed, now);
  }

  lemma BeginRollbackIs(w: World, a: ActionCommand, s: Settings, cap: Capability, freshId: Id, now: int,
                        fail: Option<Failpoint>, store: ActionStore, c: ActionCommand)
    requires w.actions.Filed() && IsPlanType(a.commandType) && (store, c) == w.actions.CreateOrGet(RollbackCommand(a, freshId, now))
    requires Writable(s) && cap.rollback && a.providerResourceId.Some?
    ensures BeginRollback(w, a, s, cap, freshId, now, fail) == Undertake(w.(actions := store), a, c, now, fail)
    ensures c.commandId in store.byId && store.byId[c.commandId] == c && exists u :: Reverses(u, a.commandType)
    ensures forall u :: Reverses(u, a.commandType) ==>
               && (Unsent(w, a, u) <==> c.state.Ready?)
               && (w.actions.Indexed() ==> c.Key() == a.Key().(commandType := u))
  {
    assert Reverses(RollbackType(a.commandType), a.commandType);
  }

  /** A rollback that goes no further. */
  lemma BeginRollbackStops(w: World, a: ActionCommand, s: Settings, cap: Capability, freshId: Id, now: int,
                           fail: Option<Failpoint>)
    requires w.actions.Filed()
    requires !Writable(s) || !cap.rollback || a.providerResourceId.None? || !IsPlanType(a.commandType)
    ensures var r := BeginRollback(w, a, s, cap, freshId, now, fail);
            && r.world.journal == w.journal && r.world.actions == w.actions && (r.Ok? ==> r.value == Returned)
            && (r.Ok? && Writable(s) && (!cap.rollback || a.providerResourceId.None?) ==> HandedOver(w, r.world, a.incidentId))
            && (r.Ok? && (!Writable(s) || !cap.rollback || a.providerResourceId.None?) ==>
                OutboxRepository.OutExecution(a.commandId, a.version, OutboxRepository.RecoveryRequiredRow) in r.world.outbox)
            && (!Writable(s) ==> r.world == w.(outbox := r.world.outbox))
  {
    RefusalEnds(w, a, now);
  }

  lemma BeginRollbackEnds(w: World, a: ActionCommand, s: Settings, cap: Capability, freshId: Id, now: int,
                          fail: Option<Failpoint>)
    requires w.actions.Filed()
    ensures var r := BeginRollback(w, a, s, cap, freshId, now, fail);
            && Ends(w, r.world, Seen(r), a, MayRollBack(w, a, s, cap, now, fail))
            && (r.Ok? && r.value.AwaitRollback? && w.actions.Indexed() ==> IsUndoing(r.value.sent, a))
  {
    if IsPlanType(a.commandType) && Writable(s) && cap.rollback && a.providerResourceId.Some? {
      var (store, c) := w.actions.CreateOrGet(RollbackCommand(a, freshId, now));
      BeginRollbackIs(w, a, s, cap, freshId, now, fail, store, c);
      UndertakeEnds(w.(actions := store), a, c, now, fail);
      CreatedEnds(w, w.(actions := store), a, s, cap, now, fail, c, Undertake(w.(actions := store), a, c, now, fail));
    } else {
      BeginRollbackStops(w, a, s, cap, freshId, now, fail);
    }
  }

  /** How the command that undoes `a` ends is how the rollback ends. */
  lemma CreatedEnds(w: World, w1: World, a: ActionCommand, s: Settings, cap: Capability, now: int,
                    fail: Option<Failpoint>,
                    c: ActionCommand, t: Eff<Next>)
    requires w1 == w.(actions := w1.actions) && Writable(s) && cap.rollback && a.providerResourceId.Some?
    requires Ends(w1, t.world, Seen(t), a, c.state.Ready? && MayRelease(w1, a, now, fail))
    requires t.Ok? && t.value.AwaitRollback? ==> t.value.sent.Key() == c.Key() && t.value.sent.state.Sent?
    requires exists u :: Reverses(u, a.commandType)
    requires forall u :: Reverses(u, a.commandType) ==>
               && (Unsent(w, a, u) <==> c.state.Ready?)
               && (w.actions.Indexed() ==> c.Key() == a.Key().(commandType := u))
    ensures Ends(w, t.world, Seen(t), a, MayRollBack(w, a, s, cap, now, fail))
    ensures t.Ok? && t.value.AwaitRollback? && w.actions.Indexed() ==> IsUndoing(t.value.sent, a)
  {
    var u :| Reverses(u, a.commandType);
    assert Unsent(w, a, u) <==> c.state.Ready?;
  }

  lemma SettleLeaves(w: World, a: ActionCommand, state: ActionState, status: OutboxRepository.ExecutionStatus, now: int,
                     id: Id)
    requires id in w.actions.byId && id != a.commandId
    ensures var v := Settle(w, a, state, status, now).world; id in v.actions.byId && v.actions.byId[id] == w.actions.byId[id]
  {
    UpdateWrites(w, a, state, None, now);
  }

  /** On the way to the provider no command changes but the one that undoes. */
  lemma ClaimedLeaves(w: World, a: ActionCommand, sent: ActionCommand, now: int, fail: Option<Failpoint>, id: Id)
    requires id in w.actions.byId && id != sent.commandId
    ensures var v := ClaimedRollback(w, a, sent, now, fail).world; id in v.actions.byId && v.actions.byId[id] == w.actions.byId[id]
  {
    var saved := SaveRecovery(w, a.incidentId, Releasing, now);
    ClaimedIs(w, a, sent, now, fail, saved);
    SettleLeaves(saved.world, sent, OutcomeUnknown, OutboxRepository.OutcomeUnknownRow, now, id);
  }

  lemma UndertakeLeaves(w: World, a: ActionCommand, r: ActionCommand, now: int, fail: Option<Failpoint>, id: Id)
    requires id in w.actions.byId && (id == r.commandId ==> !r.state.Ready? && !r.state.Sent?)
    ensures var v := Undertake(w, a, r, now, fail).world; id in v.actions.byId && v.actions.byId[id] == w.actions.byId[id]
  {
    var u := UpdateAction(w, r, ActionState.Sent, None, now);
    UpdateWrites(w, r, ActionState.Sent, None, now);
    UndertakeIs(w, a, r, now, fail, u);
    if r.state.Ready? && u.Ok? { ClaimedLeaves(u.world, a, u.value, now, fail, id); }
    if r.state.Sent? { UpdateWrites(w, r, OutcomeUnknown, None, now); }
  }

  lemma BeginRollbackLeaves(w: World, a: ActionCommand, s: Settings, cap: Capability, freshId: Id, now: int,
                            fail: Option<Failpoint>, id: Id)
    requires w.actions.Filed() && freshId !in w.actions.byId
    requires id in w.actions.byId && !w.actions.byId[id].state.Ready? && !w.actions.byId[id].state.Sent?
    ensures var v := BeginRollback(w, a, s, cap, freshId, now, fail).world; id in v.actions.byId && v.actions.byId[id] == w.actions.byId[id]
  {
    if IsPlanType(a.commandType) && Writable(s) && cap.rollback && a.providerResourceId.Some? {
      var (store, c) := w.actions.CreateOrGet(RollbackCommand(a, freshId, now));
      BeginRollbackIs(w, a, s, cap, freshId, now, fail, store, c);
      assert id in store.byId && store.byId[id] == w.actions.byId[id];
      UndertakeLeaves(w.(actions := store), a, c, now, fail, id);
    } else {
      BeginRollbackStops(w, a, s, cap, freshId, now, fail);
    }
  }

  lemma BeginRollbackUndertakes(w: World, a: ActionCommand, s: Settings, cap: Capability, freshId: Id, now: int,
                                fail: Option<Failpoint>, r: Eff<Next>)
    requires w.actions.Filed() && freshId !in w.actions.byId && r == BeginRollback(w, a, s, cap, freshId, now, fail)
    ensures Undertakes(w, r.world, a, s, cap, Seen(r), now, fail)
  {
    BeginRollbackKeeps(w, a, s, cap, freshId, now, fail);
    BeginRollbackProceeds(w, a, s, cap, freshId, now, fail);
    BeginRollbackEnds(w, a, s, cap, freshId, now, fail);
    if !Writable(s) || !cap.rollback || a.providerResourceId.None? || !IsPlanType(a.commandType) {
      BeginRollbackStops(w, a, s, cap, freshId, now, fail);
    } else if w.actions.Indexed() {
      BeginRollbackLeavesIn(w, a, s, cap, freshId, now, fail);
    }
  }

  /** The answer of `adapter.rollback` decides the rollback command: accepted, it is acknowledged and goes on to its
      verification; refused, it fails; otherwise its outcome is unknown, and the recovery is PARTIAL. */
  ghost predicate Releases(w: World, v: World, a: ActionCommand, sent: ActionCommand, answer: ProviderAnswer,
                           explicit: bool, next: Option<Next>, dies: bool) {
    Keeps(w, v) && Released(w, v, a, sent, answer, next, dies) && (answer.Rejected? && !dies ==> Refused(w, v, a, explicit, next))
  }

  /** An explicit failure of the rollback is a failed recovery, and a mere refusal leaves the recovery alone. */
  predicate Refused(w: World, v: World, a: ActionCommand, explicit: bool, next: Option<Next>) {
    if explicit then next.Some? ==> RecoveryFailed(v, a.incidentId) else v.recovery == w.recovery && v.incidents == w.incidents
  }

  ghost predicate Released(w: World, v: World, a: ActionCommand, sent: ActionCommand, answer: ProviderAnswer,
                           next: Option<Next>, dies: bool) {
    && WroteOne(w, v, sent, StateFor(answer, dies))
    && (next.Some? ==> !Overtaken(w, sent))
    && (!Overtaken(w, sent) && StateFor(answer, dies).OutcomeUnknown? ==> !InState(v, a.incidentId, Verifying))
    && (next.Some? && StateFor(answer, dies).OutcomeUnknown? ==>
        && a.incidentId in v.recovery && v.recovery[a.incidentId].state.Partial? && Reported(v, sent, OutboxRepository.OutcomeUnknownRow))
    && (next.Some? ==>
        next.value == if StateFor(answer, dies).Acknowledged? then AwaitVerifyRollback(a, v.actions.byId[sent.commandId])
                      else Returned)
  }

  lemma SaveRecoverySaves(w: World, id: Id, state: RecoveryState, now: int)
    ensures var r := SaveRecovery(w, id, state, now);
            && r.world == w.(recovery := r.world.recovery, incidents := r.world.incidents)
            && (r.Ok? ==> id in r.world.recovery && r.world.recovery[id].state == state)
            && forall s: IncidentState :: InState(r.world, id, s) <==> InState(w, id, s)
  {
    var r := SaveForward(Lookup(w.recovery, id), state);
    if r.None? {
      assert SaveRecovery(w, id, state, now) == Raised(w);
    } else {
      SavedForward(w, id, state);
      if id in w.incidents.items {
        var items := SaveRecovery(w, id, state, now).world.incidents.items;
        assert items == w.incidents.items[id := Repaired(w.incidents.items[id], r.value.state, now)];
      }
    }
  }

  lemma SavedForward(w: World, id: Id, state: RecoveryState)
    ensures var r := SaveForward(Lookup(w.recovery, id), state); r.Some? ==> r.value.state == state
  {}

  /** What an unknown outcome of the rollback does to the incident. */
  lemma PartlyRecovered(w: World, incident: Id, now: int)
    ensures var r := SaveRecovery(MoveIncidentFrom(w, incident, Verifying, Recovering, now), incident, Partial, now);
            && r.world == w.(recovery := r.world.recovery, incidents := r.world.incidents) && !InState(r.world, incident, Verifying)
            && (r.Ok? ==> incident in r.world.recovery && r.world.recovery[incident].state.Partial?)
  {
    var m := MoveIncidentFrom(w, incident, Verifying, Recovering, now);
    assert !InState(m, incident, Verifying);
    SaveRecoverySaves(m, incident, Partial, now);
  }

  lemma UnknownReleased(w: World, a: ActionCommand, sent: ActionCommand, answer: ProviderAnswer, explicit: bool,
                        now: int, fail: Option<Failpoint>, dies: bool)
    requires (answer.Ambiguous? || dies) && (dies <==> fail == Some(AfterRollbackProviderBeforeResult))
    ensures var r := AfterRollback(w, a, sent, answer, explicit, now, fail); Released(w, r.world, a, sent, answer, Seen(r), dies)
  {
    var u := UpdateAction(w, sent, OutcomeUnknown, None, now);
    UpdateWrites(w, sent, OutcomeUnknown, None, now);
    if u.Ok? { PartlyRecovered(u.world, a.incidentId, now); }
  }

  lemma RejectedReleased(w: World, a: ActionCommand, sent: ActionCommand, answer: ProviderAnswer, explicit: bool,
                         now: int, fail: Option<Failpoint>)
    requires answer.Rejected? && fail != Some(AfterRollbackProviderBeforeResult)
    ensures var r := AfterRollback(w, a, sent, answer, explicit, now, fail);
            Released(w, r.world, a, sent, answer, Seen(r), false) && Refused(w, r.world, a, explicit, Seen(r))
  {
    var u := UpdateAction(w, sent, ActionState.Failed, None, now);
    UpdateWrites(w, sent, ActionState.Failed, None, now);
    if u.Ok? { SaveRecoverySaves(u.world, a.incidentId, RecoveryState.Failed, now); }
  }

  lemma AcceptedReleased(w: World, a: ActionCommand, sent: ActionCommand, answer: ProviderAnswer, explicit: bool,
                         now: int, fail: Option<Failpoint>)
    requires answer.Accepted? && fail != Some(AfterRollbackProviderBeforeResult)
    ensures var r := AfterRollback(w, a, sent, answer, explicit, now, fail); Released(w, r.world, a, sent, answer, Seen(r), false)
  {
    UpdateWrites(w, sent, Acknowledged, None, now);
  }

  lemma AfterRollbackReleases(w: World, a: ActionCommand, sent: ActionCommand, answer: ProviderAnswer, explicit: bool,
                              now: int, fail: Option<Failpoint>, r: Eff<Next>, dies: bool)
    requires r == AfterRollback(w, a, sent, answer, explicit, now, fail) && (dies <==> fail == Some(AfterRollbackProviderBeforeResult))
    ensures Releases(w, r.world, a, sent, answer, explicit, Seen(r), dies)
  {
    AfterRollbackKeeps(w, a, sent, answer, explicit, now, fail);
    if answer.Ambiguous? || dies { UnknownReleased(w, a, sent, answer, explicit, now, fail, dies); }
    else if answer.Rejected? { RejectedReleased(w, a, sent, answer, explicit, now, fail); }
    else { AcceptedReleased(w, a, sent, answer, explicit, now, fail); }
  }

  /** A verified rollback ends on evidence already on record: its command is ROLLED_BACK, the recovery COMPLETE, and
      an incident that was verifying or recovering is RESOLVED; the command that it undid is ROLLED_BACK too.  An
      unverified one resolves nothing.  A recovery that has not failed is completed in any case, a partial one too. */
  ghost predicate Undoes(w: World, v: World, a: ActionCommand, accepted: ActionCommand, verified: bool, ok: bool) {
    Completes(w, v, a, accepted, verified) && EndsAll(w, v, a, accepted, verified, ok)
  }

  ghost predicate Completes(w: World, v: World, a: ActionCommand, accepted: ActionCommand, verified: bool) {
    verified && !Overtaken(w, accepted) && a.commandId in w.actions.byId && !RecoveryFailed(w, a.incidentId) ==>
      a.incidentId in v.recovery && v.recovery[a.incidentId].state == RecoveryState.Complete
  }

  ghost predicate EndsAll(w: World, v: World, a: ActionCommand, accepted: ActionCommand, verified: bool, ok: bool) {
    && (if verified then Earns(Undone(w, a, accepted), v) else Keeps(w, v))
    && v.leases == w.leases && v.journal.calls == w.journal.calls
    && !InState(v, a.incidentId, Verifying)
    && (ok ==>
        && accepted.commandId in v.actions.byId && a.incidentId in v.recovery
        && StateIn(v, accepted.commandId) == (if verified then RolledBack else ReconciliationRequired)
        && v.recovery[a.incidentId].state == (if verified then RecoveryState.Complete else Partial)
        && Reported(v, accepted, if verified then OutboxRepository.RolledBackRow else OutboxRepository.RecoveryRequiredRow)
        && (verified && a.commandId in w.actions.byId && StateIn(w, a.commandId) == RollbackRequired ==>
            a.commandId in v.actions.byId && StateIn(v, a.commandId) == RolledBack)
        && (verified && (InState(w, a.incidentId, Verifying) || InState(w, a.incidentId, Recovering)) ==>
            ClosedAs(v, a.incidentId, RolledBackSafely) && v.incidents.items[a.incidentId].recovery == RecoveryState.Complete))
  }

  lemma UndoOriginalWrites(w: World, a: ActionCommand, id: Id, now: int)
    requires w.actions.Filed() && id in w.actions.byId && w.actions.byId[id].state.RolledBack?
    ensures var r := UndoOriginal(w, a, now);
            && r.world == w.(actions := r.world.actions) && id in r.world.actions.byId && StateIn(r.world, id).RolledBack?
            && (a.commandId in w.actions.byId && StateIn(w, a.commandId) == RollbackRequired ==>
                a.commandId in r.world.actions.byId && StateIn(r.world, a.commandId) == RolledBack)
  {
    var original := if a.commandId in w.actions.byId then w.actions.byId[a.commandId] else a;
    UpdateWrites(w, original, RolledBack, None, now);
  }

  /** The recovery is complete, and the incident resolved. */
  lemma CompletedWrites(w: World, incident: Id, now: int)
    requires !InState(w, incident, Verifying)
    ensures var r := SaveRecovery(w, incident, RecoveryState.Complete, now); var v := ResolveRolledBack(r.world, incident, now);
            && r.world == w.(recovery := r.world.recovery, incidents := r.world.incidents) && !InState(r.world, incident, Verifying)
            && v == r.world.(incidents := v.incidents) && !InState(v, incident, Verifying)
            && (r.Ok? ==> incident in v.recovery && v.recovery[incident].state.Complete?)
            && (InState(w, incident, Recovering) ==>
                ClosedAs(v, incident, RolledBackSafely) && v.incidents.items[incident].recovery == RecoveryState.Complete)
  {
    var r := SaveRecovery(w, incident, RecoveryState.Complete, now);
    SaveRecoverySaves(w, incident, RecoveryState.Complete, now);
    ResolveMoves(r.world, incident, Recovering, None, RolledBackSafely, Some(RecoveryState.Complete), now);
  }

  /** What a rollback leaves, verified or not. */
  ghost predicate Ended(w: World, r: Eff<Next>, incident: Id, accepted: ActionCommand, state: ActionState,
                        recovery: RecoveryState, status: OutboxRepository.ExecutionStatus) {
    && r.world.leases == w.leases && r.world.journal == w.journal && !InState(r.world, incident, Verifying)
    && (r.Ok? ==>
        && accepted.commandId in r.world.actions.byId && StateIn(r.world, accepted.commandId) == state
        && incident in r.world.recovery && r.world.recovery[incident].state == recovery && Reported(r.world, accepted, status))
  }

  /** The command that was undone ends with the rollback. */
  ghost predicate OriginalEnded(w: World, r: Eff<Next>, a: ActionCommand) {
    r.Ok? && a.commandId in w.actions.byId && StateIn(w, a.commandId) == RollbackRequired ==>
      a.commandId in r.world.actions.byId && StateIn(r.world, a.commandId) == RolledBack
  }

  /** The writes after a verified rollback. */
  lemma FinishRollbackWrites(w: World, a: ActionCommand, accepted: ActionCommand, now: int)
    requires w.actions.Filed() && !InState(w, a.incidentId, Verifying)
    ensures var r := FinishRollback(w, a, accepted, now);
            && Ended(w, r, a.incidentId, accepted, RolledBack, RecoveryState.Complete, OutboxRepository.RolledBackRow)
            && OriginalEnded(w, r, a)
            && (r.Ok? && InState(w, a.incidentId, Recovering) ==>
                ClosedAs(r.world, a.incidentId, RolledBackSafely) && r.world.incidents.items[a.incidentId].recovery == RecoveryState.Complete)
  {
    var u := UpdateAction(w, accepted, RolledBack, None, now);
    UpdateWrites(w, accepted, RolledBack, None, now);
    if u.Ok? {
      var o := UndoOriginal(u.world, a, now);
      UndoOriginalWrites(u.world, a, accepted.commandId, now);
      FinishRollbackIs(w, a, accepted, now, u, o);
      CompletedWrites(o.world, a.incidentId, now);
    }
  }

  lemma CompletionOpens(w: World, incident: Id, now: int)
    ensures SaveRecovery(w, incident, RecoveryState.Complete, now).Ok? <==> !RecoveryFailed(w, incident)
  {
    var r := SaveForward(Lookup(w.recovery, incident), RecoveryState.Complete);
    assert r.Some? <==> ValidForward(StateOf(Lookup(w.recovery, incident)), RecoveryState.Complete);
  }

  /** Nothing that a verified rollback writes keeps its recovery from completion. */
  lemma FinishRollbackCompletes(w: World, a: ActionCommand, accepted: ActionCommand, now: int)
    requires w.actions.Filed() && !Overtaken(w, accepted) && a.commandId in w.actions.byId && !RecoveryFailed(w, a.incidentId)
    ensures var v := FinishRollback(w, a, accepted, now).world;
            a.incidentId in v.recovery && v.recovery[a.incidentId].state == RecoveryState.Complete
  {
    var u := UpdateAction(w, accepted, RolledBack, None, now);
    UpdateWrites(w, accepted, RolledBack, None, now);
    var o := UndoOriginal(u.world, a, now);
    UpdateWrites(u.world, u.world.actions.byId[a.commandId], RolledBack, None, now);
    FinishRollbackIs(w, a, accepted, now, u, o);
    CompletionOpens(o.world, a.incidentId, now);
    SaveRecoverySaves(o.world, a.incidentId, RecoveryState.Complete, now);
    ResolveRolledBackAside(SaveRecovery(o.world, a.incidentId, RecoveryState.Complete, now).world, a.incidentId, now);
  }

  lemma ResolveRolledBackAside(w: World, incident: Id, now: int)
    ensures ResolveRolledBack(w, incident, now).recovery == w.recovery
  {}

  lemma FinishRollbackIs(w: World, a: ActionCommand, accepted: ActionCommand, now: int, u: Eff<ActionCommand>,
                         o: Eff<ActionCommand>)
    requires u == UpdateAction(w, accepted, RolledBack, None, now) && u.Ok? && o == UndoOriginal(u.world, a, now)
    ensures var s := SaveRecovery(o.world, a.incidentId, RecoveryState.Complete, now); var r := FinishRollback(w, a, accepted, now);
            if o.Raised? then r == Raised(o.world) else if s.Raised? then r == Raised(s.world)
            else
              && r.world == ResolveRolledBack(s.world, a.incidentId, now).(outbox := r.world.outbox)
              && (r.Ok? ==> OutboxRepository.OutExecution(u.value.commandId, u.value.version, OutboxRepository.RolledBackRow) in r.world.outbox)
  {}

  /** A write of the command, then the partial recovery. */
  lemma PartialWrites(w: World, incident: Id, accepted: ActionCommand, now: int, u: Eff<ActionCommand>)
    requires u == UpdateAction(w, accepted, ReconciliationRequired, None, now) && u.Ok? && !InState(w, incident, Verifying)
    ensures var s := SaveRecovery(u.world, incident, Partial, now);
            && s.world.leases == w.leases && s.world.journal == w.journal && !InState(s.world, incident, Verifying)
            && accepted.commandId in s.world.actions.byId && StateIn(s.world, accepted.commandId).ReconciliationRequired?
            && (s.Ok? ==> incident in s.world.recovery && s.world.recovery[incident].state.Partial?)
  {
    UpdateWrites(w, accepted, ReconciliationRequired, None, now);
    SaveRecoverySaves(u.world, incident, Partial, now);
  }

  lemma UnverifiedRaises(w: World, a: ActionCommand, accepted: ActionCommand, now: int, w1: World)
    requires w1 == MoveIncidentFrom(w, a.incidentId, Verifying, Recovering, now)
             && UpdateAction(w1, accepted, ReconciliationRequired, None, now).Raised?
    ensures AfterVerifyRollback(w, a, accepted, false, now) == Raised(w1)
  {}

  lemma UnverifiedWrites(w: World, a: ActionCommand, accepted: ActionCommand, now: int)
    ensures Ended(w, AfterVerifyRollback(w, a, accepted, false, now), a.incidentId, accepted, ReconciliationRequired, Partial,
                  OutboxRepository.RecoveryRequiredRow)
  {
    var w1 := MoveIncidentFrom(w, a.incidentId, Verifying, Recovering, now);
    assert !InState(w1, a.incidentId, Verifying);
    var u := UpdateAction(w1, accepted, ReconciliationRequired, None, now);
    UpdateWrites(w1, accepted, ReconciliationRequired, None, now);
    if u.Ok? {
      PartialWrites(w1, a.incidentId, accepted, now, u);
      UnverifiedIs(w, a, accepted, now, u);
    } else {
      UnverifiedRaises(w, a, accepted, now, w1);
    }
  }

  lemma UnverifiedIs(w: World, a: ActionCommand, accepted: ActionCommand, now: int, u: Eff<ActionCommand>)
    requires u == UpdateAction(MoveIncidentFrom(w, a.incidentId, Verifying, Recovering, now), accepted,
                               ReconciliationRequired, None, now) && u.Ok?
    ensures var s := SaveRecovery(u.world, a.incidentId, Partial, now); var r := AfterVerifyRollback(w, a, accepted, false, now);
            && r.world == s.world.(outbox := r.world.outbox)
            && (r.Ok? ==>
                && s.Ok?
                && OutboxRepository.OutExecution(u.value.commandId, u.value.version, OutboxRepository.RecoveryRequiredRow) in r.world.outbox)
  {}

  lemma VerifiedRollbackEnds(w: World, a: ActionCommand, accepted: ActionCommand, now: int, r: Eff<Next>, w1: World)
    requires w.actions.Filed() && r == AfterVerifyRollback(w, a, accepted, true, now)
    requires w1 == MoveIncidentFrom(w, a.incidentId, Verifying, Recovering, now) && r == FinishRollback(Undone(w1, a, accepted), a, accepted, now)
    ensures EndsAll(w, r.world, a, accepted, true, r.Ok?)
  {
    AfterVerifyRollbackEarns(w, a, accepted, now);
    MovedToRecovery(w, a.incidentId, now);
    FinishRollbackWrites(Undone(w1, a, accepted), a, accepted, now);
    EndedIsAll(w, w1, a, accepted, r);
  }

  lemma MovedToRecovery(w: World, incident: Id, now: int)
    ensures var w1 := MoveIncidentFrom(w, incident, Verifying, Recovering, now);
            && w1 == w.(incidents := w1.incidents) && !InState(w1, incident, Verifying)
            && (InState(w, incident, Verifying) || InState(w, incident, Recovering) ==> InState(w1, incident, Recovering))
  {}

  lemma EndedIsAll(w: World, w1: World, a: ActionCommand, accepted: ActionCommand, r: Eff<Next>)
    requires w1 == w.(incidents := w1.incidents) && Earns(Undone(w, a, accepted), r.world)
    requires InState(w, a.incidentId, Verifying) || InState(w, a.incidentId, Recovering) ==> InState(w1, a.incidentId, Recovering)
    requires Ended(Undone(w1, a, accepted), r, a.incidentId, accepted, RolledBack, RecoveryState.Complete, OutboxRepository.RolledBackRow)
    requires OriginalEnded(Undone(w1, a, accepted), r, a)
    requires r.Ok? && InState(w1, a.incidentId, Recovering) ==>
               ClosedAs(r.world, a.incidentId, RolledBackSafely) && r.world.incidents.items[a.incidentId].recovery == RecoveryState.Complete
    ensures EndsAll(w, r.world, a, accepted, true, r.Ok?)
  {}

  lemma VerifiedRollbackCompletes(w: World, a: ActionCommand, accepted: ActionCommand, now: int, r: Eff<Next>,
                                  w1: World)
    requires w.actions.Filed() && w1 == w.(incidents := w1.incidents) && r == FinishRollback(Undone(w1, a, accepted), a, accepted, now)
    ensures Completes(w, r.world, a, accepted, true)
  {
    if !Overtaken(w, accepted) && a.commandId in w.actions.byId && !RecoveryFailed(w, a.incidentId) {
      FinishRollbackCompletes(Undone(w1, a, accepted), a, accepted, now);
    }
  }

  lemma AfterVerifyRollbackUndoes(w: World, a: ActionCommand, accepted: ActionCommand, verified: bool, now: int,
                                  r: Eff<Next>)
    requires w.actions.Filed() && r == AfterVerifyRollback(w, a, accepted, verified, now)
    ensures Undoes(w, r.world, a, accepted, verified, r.Ok?)
  {
    if verified {
      VerifiedRollbackEnds(w, a, accepted, now, r, MoveIncidentFrom(w, a.incidentId, Verifying, Recovering, now));
      VerifiedRollbackCompletes(w, a, accepted, now, r, MoveIncidentFrom(w, a.incidentId, Verifying, Recovering, now));
    } else {
      UnverifiedRollbackKeeps(w, a, accepted, now);
      UnverifiedWrites(w, a, accepted, now);
    }
  }
}
