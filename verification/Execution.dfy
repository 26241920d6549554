/** The executor's segments as functions of the stored world (durable_execution.py).

    Between two awaits a handler runs alone, so one segment is one atomic step.  A segment returns the
    world it leaves and where the handler is suspended; an exception keeps the writes made before it. */
module Execution {
  import opened Options
  import opened DurableCore
  import opened IncidentRepository
  import opened OutboxRepository
  import opened RecoveryConsistency

  // ---------------------------------------------------------------- stored records

  datatype Lease = Lease(owner: Id, expiresAt: Option<int>, owned: bool, version: nat)

  /** A row of the policy cost ledger; its ledger identity is `cost-{commandId}`. */
  datatype Charge = Charge(commandId: Id, incidentId: Id, cents: nat)

  /** NETWORK_ACTION verification records, filed under `verify-..` or `reverify-..-n`. */
  datatype CheckId = Verify(commandId: Id) | Reverify(commandId: Id, attempt: nat)

  datatype Check = Check(incidentId: Id, state: VerificationState, improved: bool, updatedAt: int)

  /** PROVIDER_RECONCILIATION verification records, filed under `reconcile-..-n` or `reconcile-..-terminal`;
      the world keeps those of each command in the order of their first insertion. */
  datatype ReadOutcome = ProviderAvailable | WaitingForProvider | ProviderNotFound | StillUnknown | MalformedResponse | ManualRequired

  datatype ReadRecord = ReadRecord(
    commandId: Id, incidentId: Id, attempt: nat, outcome: ReadOutcome, terminal: bool, updatedAt: int)
  {
    /** The state under which the record is saved: an observation of the provider stays PENDING. */
    function State(): VerificationState {
      match outcome
      case ProviderAvailable => VerificationState.Pending
      case WaitingForProvider => VerificationState.Pending
      case ProviderNotFound => VerificationState.Failed
      case _ => InsufficientEvidence
    }
  }

  datatype TrustRecord = TrustRecord(verifiedAt: int, numberVerified: bool, noRecentSimSwap: bool)

  /** What happened, for stating properties: no code reads it. */
  datatype Journal = Journal(
    improved: set<Id>,   // commands for which an IMPROVED verification was saved
    undone: set<Id>,     // commands of a verified rollback
    recovered: set<Id>,  // incidents of a verified rollback
    calls: seq<ProviderCall>)

  datatype ProviderCall = ExecuteCall(commandId: Id, cents: nat) | RollbackCall(commandId: Id)

  datatype World = World(
    actions: ActionStore, incidents: IncidentStore, leases: map<Id, Lease>, ledger: seq<Charge>,
    checks: map<CheckId, Check>, attempts: map<Id, seq<ReadRecord>>, trust: map<Id, seq<TrustRecord>>,
    recovery: map<Id, Recovery>, outbox: map<OutboxId, Row>, journal: Journal)

  datatype Mode = Fixture | LiveReadOnly | LiveWrite | InvalidMode

  datatype Settings = Settings(
    mode: Mode, liveWriteLoop: bool, adapterLive: bool, rollbackSeconds: nat, minimumConfidence: real,
    maxBlastRadius: real, maxDevices: int, ceilingCents: nat, trustTtl: int)

  datatype Capability = Capability(mutation: bool, rollback: bool)

  datatype Failpoint =
    | BeforeOwnership | AfterOwnershipBeforeSent | AfterSentBeforeProvider | AfterProviderBeforeResult
    | AfterResultBeforeVerification | AfterVerificationBeforePublication
    | AfterRollbackSentBeforeProvider | AfterRollbackProviderBeforeResult

  // ---------------------------------------------------------------- effects

  datatype Eff<T> = Ok(world: World, value: T) | Raised(world: World)
  {
    predicate IsFailure() { Raised? }
    function PropagateFailure<U>(): Eff<U> requires Raised? { Eff<U>.Raised(world) }
    function Extract(): (World, T) requires Ok? { (world, value) }
  }

  /** `failure_hook` may raise at a stage. */
  function Hook(w: World, stage: Failpoint, fail: Option<Failpoint>): (r: Eff<()>)
    ensures r.world == w
  {
    if fail == Some(stage) then Raised(w) else Ok(w, ())
  }

  /** The copy that `_update_action` writes. */
  function Written(a: ActionCommand, state: ActionState, rid: Option<Id>, now: int): ActionCommand {
    a.(state := state, providerResourceId := rid.Or(a.providerResourceId),
       attemptCount := if state.Sent? then a.attemptCount + 1 else a.attemptCount,
       lastAttemptAt := if state.Sent? then Some(now) else a.lastAttemptAt,
       completedAt := if TerminalAction(state) then Some(now) else a.completedAt)
  }

  /** `_update_action`: compare-and-swap against the version of the snapshot `a`. */
  function UpdateAction(w: World, a: ActionCommand, state: ActionState, rid: Option<Id>,
                        now: int): (r: Eff<ActionCommand>)
    ensures r.world == w.(actions := r.world.actions) && (w.actions.Filed() ==> r.world.actions.Filed())
    ensures r.Ok? ==> a.commandId in r.world.actions.byId && r.world.actions.byId[a.commandId] == r.value && r.value.state == state
  {
    match w.actions.Update(Written(a, state, rid, now), a.version)
    case None => Raised(w)
    case Some(store) => Ok(w.(actions := store), Written(a, state, rid, now).(version := a.version + 1))
  }

  predicate InState(w: World, id: Id, s: IncidentState) { id in w.incidents.items && w.incidents.items[id].state == s }

  /** `v` is `w` but for one incident. */
  ghost predicate OnlyIncident(w: World, v: World, id: Id) {
    && v == w.(incidents := v.incidents)
    && forall other <- v.incidents.items :: other != id ==>
         other in w.incidents.items && v.incidents.items[other] == w.incidents.items[other]
  }

  /** `if incident and its state is `from`: _transition(.., to, ..)`. */
  function MoveIncidentFrom(w: World, id: Id, from: IncidentState, to: IncidentState, now: int): (r: World)
    requires CanMove(from, to)
    ensures OnlyIncident(w, r, id) && r.incidents.items.Keys == w.incidents.items.Keys
  {
    if InState(w, id, from) then w.(incidents := w.incidents.Transition(id, to, now).value) else w
  }

  /** The fields that callers of `_update_incident_fields` change. */
  function WithFields(i: Incident, verification: Option<VerificationState>, outcome: Option<IncidentOutcome>,
                      recovery: Option<RecoveryState>, now: int): Incident {
    i.(verification := verification.Or(Some(i.verification)).value, outcome := outcome.Or(Some(i.outcome)).value,
       recovery := recovery.Or(Some(i.recovery)).value, updatedAt := now)
  }

  /** `_update_incident_fields`. */
  function WriteIncident(w: World, id: Id, verification: Option<VerificationState>, outcome: Option<IncidentOutcome>,
                         recovery: Option<RecoveryState>, now: int): (r: Eff<()>)
    ensures OnlyIncident(w, r.world, id)
  {
    if id !in w.incidents.items then Raised(w)
    else
      var i := w.incidents.items[id];
      var updated := WithFields(i, verification, outcome, recovery, now).(version := i.version + 1);
      Ok(w.(incidents := w.incidents.(items := w.incidents.items[id := updated])), ())
  }

  /** RESOLVED, from the one state that the caller accepts, with the fields that record why. */
  function Resolve(w: World, id: Id, from: IncidentState, verification: Option<VerificationState>,
                   outcome: IncidentOutcome,
                   recovery: Option<RecoveryState>, now: int): (r: World)
    requires CanMove(from, Resolved)
    ensures OnlyIncident(w, r, id)
  {
    if InState(w, id, from)
    then WriteIncident(MoveIncidentFrom(w, id, from, Resolved, now), id, verification, Some(outcome), recovery, now).world
    else w
  }

  function ResolveRolledBack(w: World, id: Id, now: int): World {
    Resolve(w, id, Recovering, None, RolledBackSafely, Some(RecoveryState.Complete), now)
  }

  /** `_append_outbox`: raises when the incident or its trigger event is unknown. */
  function AppendOutbox(w: World, a: ActionCommand, status: ExecutionStatus, now: int): (r: Eff<()>)
    ensures r.world == w.(outbox := r.world.outbox)
  {
    if a.incidentId !in w.incidents.items || |w.incidents.items[a.incidentId].triggerEventId| == 0 then Raised(w)
    else
      var row := NewRow(w.incidents.items[a.incidentId].triggerEventId, ActionStateChanged, now);
      Ok(w.(outbox := AppendRow(w.outbox, OutExecution(a.commandId, a.version, status), row)), ())
  }

  /** `_save_recovery`: the forward-checked save, then the repair of the incident's projected field. */
  function SaveRecovery(w: World, incident: Id, state: RecoveryState, now: int): (r: Eff<()>)
    ensures r.world == w.(recovery := r.world.recovery, incidents := r.world.incidents)
  {
    match SaveForward(Lookup(w.recovery, incident), state)
    case None => Raised(w)
    case Some(r) =>
      var w1 := w.(recovery := w.recovery[incident := r]);
      if incident !in w.incidents.items then Ok(w1, ())
      else Ok(w1.(incidents := w.incidents.(items :=
                  w.incidents.items[incident := Repaired(w.incidents.items[incident], r.state, now)])), ())
  }

  // ---------------------------------------------------------------- guards

  predicate Actionable(s: IncidentState) { s.Approved? || s.Mitigating? || s.Verifying? }

  /** `_cost`, in cents. */
  function Cost(a: ActionCommand): nat {
    if !a.commandType.QodPlan? then 0 else if a.guaranteedProfile then 75 else 20
  }

  predicate CostRecorded(ledger: seq<Charge>, a: ActionCommand) {
    exists c <- ledger :: c.commandId == a.commandId && c.incidentId == a.incidentId
  }

  function Total(ledger: seq<Charge>, incident: Id): nat {
    if ledger == [] then 0
    else Total(ledger[..|ledger| - 1], incident)
         + (if ledger[|ledger| - 1].incidentId == incident then ledger[|ledger| - 1].cents else 0)
  }

  /** `max(records, key=timestamp)`: the first of the latest records. */
  function Latest(rs: seq<TrustRecord>): TrustRecord
    requires rs != []
  {
    if |rs| == 1 then rs[0]
    else var l := Latest(rs[..|rs| - 1]); if l.verifiedAt < rs[|rs| - 1].verifiedAt then rs[|rs| - 1] else l
  }

  /** `_current_trust_allows`. */
  predicate TrustAllows(w: World, a: ActionCommand, s: Settings, now: int) {
    !a.pre.trustedDispatchRequired ||
    (a.incidentId in w.trust && w.trust[a.incidentId] != [] &&
     var l := Latest(w.trust[a.incidentId]);
     0 <= now - l.verifiedAt <= s.trustTtl && l.numberVerified && l.noRecentSimSwap)
  }

  predicate GuardsHold(p: Preconditions, s: Settings) {
    && p.confidence.Some? && s.minimumConfidence <= p.confidence.value
    && p.blastRadius.Some? && p.blastRadius.value <= s.maxBlastRadius
    && p.selectedDeviceCount.Some? && 0 <= p.selectedDeviceCount.value <= s.maxDevices
    && p.wardenAllow
  }

  predicate NoNewerPlan(w: World, a: ActionCommand) {
    forall id <- w.actions.byId :: w.actions.byId[id].incidentId == a.incidentId ==> w.actions.byId[id].planVersion <= a.planVersion
  }

  predicate OlderPlansSettled(w: World, a: ActionCommand) {
    forall id <- w.actions.byId :: var b := w.actions.byId[id];
      b.incidentId == a.incidentId && b.commandId != a.commandId && b.resourceKey == a.resourceKey && b.planVersion < a.planVersion
      ==> TerminalAction(b.state)
  }

  /** `_eligibility_reason(..) is None`. */
  predicate Eligible(w: World, a: ActionCommand, s: Settings, now: int)
    requires a.incidentId in w.incidents.items
  {
    var i := w.incidents.items[a.incidentId];
    && Actionable(i.state)
    && 0 <= now - a.requestedAt <= s.rollbackSeconds
    && i.warden.Allow? && i.planVersion == a.planVersion
    && GuardsHold(a.pre, s)
    && TrustAllows(w, a, s, now)
    && (CostRecorded(w.ledger, a) || Total(w.ledger, a.incidentId) + Cost(a) <= s.ceilingCents)
    && NoNewerPlan(w, a) && OlderPlansSettled(w, a)
  }

  /** `_mode_reason() is None`. */
  predicate ModeAllows(s: Settings) { s.mode.Fixture? || (s.mode.LiveWrite? && s.liveWriteLoop && s.adapterLive) }

  // ---------------------------------------------------------------- leases and costs

  predicate Unexpired(l: Lease, now: int) { l.expiresAt.None? || now < l.expiresAt.value }

  /** `InMemoryResourceOwnershipRepository.acquire`; `None` is ResourceAlreadyOwned. */
  function Acquire(leases: map<Id, Lease>, key: Id, owner: Id, now: int): Option<map<Id, Lease>> {
    if key in leases && leases[key].owned then
      if Unexpired(leases[key], now)
      then if leases[key].owner == owner then Some(leases) else None
      else Some(leases[key := Lease(owner, Some(now + 300), true, leases[key].version + 1)])
    else Some(leases[key := Lease(owner, Some(now + 300), true, 0)])
  }

  /** `_ensure_ownership`: keeps a live lease of the incident, takes a free or expired one. */
  function EnsureOwnership(w: World, a: ActionCommand, now: int): Option<World> {
    var l := w.leases;
    if a.resourceKey in l && l[a.resourceKey].owned && Unexpired(l[a.resourceKey], now)
    then if l[a.resourceKey].owner == a.incidentId then Some(w) else None
    else match Acquire(l, a.resourceKey, a.incidentId, now)
      case None => None
      case Some(leases) => Some(w.(leases := leases))
  }

  /** `_ownership_is_current` on what `get_active` returns. */
  predicate OwnershipCurrent(w: World, a: ActionCommand, now: int) {
    && a.resourceKey in w.leases && w.leases[a.resourceKey].owned
    && w.leases[a.resourceKey].owner == a.incidentId
    && w.leases[a.resourceKey].expiresAt.Some? && now < w.leases[a.resourceKey].expiresAt.value
  }

  /** Releases every lease the incident holds. */
  function ReleaseAll(leases: map<Id, Lease>, incident: Id): map<Id, Lease> {
    map k | k in leases ::
      if leases[k].owned && leases[k].owner == incident then leases[k].(owned := false, version := leases[k].version + 1) else leases[k]
  }

  /** `_record_cost_once`. */
  function RecordCost(w: World, a: ActionCommand): Eff<()> {
    if Cost(a) == 0 || CostRecorded(w.ledger, a) then Ok(w, ())
    else if exists c <- w.ledger :: c.commandId == a.commandId then Raised(w)  // identity conflict
    else Ok(w.(ledger := w.ledger + [Charge(a.commandId, a.incidentId, Cost(a))]), ())
  }

  // ---------------------------------------------------------------- segments

  /** Where a handler is after a segment. */
  datatype Next =
    | Returned
    | AwaitExecute(sent: ActionCommand)
    | AwaitReconcile(action: ActionCommand)
    | AwaitVerify(action: ActionCommand)
    | AwaitRollback(original: ActionCommand, sent: ActionCommand)
    | AwaitVerifyRollback(original: ActionCommand, accepted: ActionCommand)

  /** The instants at which `execute_ready_action` reads the clock on its way to the provider. */
  datatype Instants = Instants(checked: int, leased: int, rechecked: int, owned: int, final: int)
  {
    predicate Ordered() { checked <= leased <= rechecked <= owned <= final }
  }

  /** A compare-and-swap, and the row that reports it. */
  function Settle(w: World, a: ActionCommand, state: ActionState, status: ExecutionStatus, now: int): Eff<Next> {
    var (w1, written) :- UpdateAction(w, a, state, None, now);
    var (w2, _) :- AppendOutbox(w1, written, status, now);
    Ok(w2, Returned)
  }

  /** `_persist_block`. */
  function PersistBlock(w: World, a: ActionCommand, now: int): Eff<Next> {
    var current := if a.commandId in w.actions.byId then w.actions.byId[a.commandId] else a;
    var (w1, stored) :- if current.state.Ready? then UpdateAction(w, current, ActionState.Failed, None, now) else Ok(w, current);
    var w2 := MoveIncidentFrom(w1, a.incidentId, Approved, Blocked, now);
    var (w3, _) :- AppendOutbox(w2, stored, BlockedRow, now);
    Ok(w3, Returned)
  }

  /** From the SENT commit to the provider call: the lease once more, then every authority once more. */
  function CallProvider(w: World, sent: ActionCommand, s: Settings, t: Instants): Eff<Next> {
    if !OwnershipCurrent(w, sent, t.owned) then Settle(w, sent, OutcomeUnknown, OutcomeUnknownRow, t.owned)
    else if sent.commandId !in w.actions.byId then Ok(w, Returned)
    else
      var latest := w.actions.byId[sent.commandId];
      if latest.state.Sent? && latest.version == sent.version && sent.incidentId in w.incidents.items
         && latest.incidentId in w.incidents.items && Eligible(w, latest, s, t.final)
      then ChargeAndCall(w, sent, t.final)
      else if latest.state.Sent? then Settle(w, latest, ActionState.Failed, BlockedRow, t.final)
      else Ok(w, Returned)
  }

  /** The charge, then `adapter.execute`. */
  function ChargeAndCall(w: World, sent: ActionCommand, now: int): Eff<Next> {
    match RecordCost(w, sent)
    case Raised(w0) => Settle(w0, sent, ActionState.Failed, BlockedRow, now)
    case Ok(w1, _) =>
      Ok(w1.(journal := w1.journal.(calls := w1.journal.calls + [ExecuteCall(sent.commandId, Cost(sent))])), AwaitExecute(sent))
  }

  /** `execute_ready_action` for a READY command, up to the provider call. */
  function StartReady(w: World, a: ActionCommand, s: Settings, cap: Capability, t: Instants,
                      fail: Option<Failpoint>): Eff<Next>
    requires a.commandId in w.actions.byId && w.actions.byId[a.commandId] == a
  {
    if a.incidentId !in w.incidents.items || !Eligible(w, a, s, t.checked) || !ModeAllows(s) || !cap.mutation
    then PersistBlock(w, a, t.checked)
    else Own(w, a, s, t, fail)
  }

  /** The lease on the resource. */
  function Own(w: World, a: ActionCommand, s: Settings, t: Instants, fail: Option<Failpoint>): Eff<Next>
    requires a.incidentId in w.incidents.items
  {
    var (_, _) :- Hook(w, BeforeOwnership, fail);
    match EnsureOwnership(w, a, t.leased)
    case None => PersistBlock(w, a, t.leased)
    case Some(w1) =>
      var (_, _) :- Hook(w1, AfterOwnershipBeforeSent, fail);
      TakeUp(w1, a, s, t, fail)
  }

  /** With the lease held: the second look, then READY -> SENT. */
  function TakeUp(w: World, a: ActionCommand, s: Settings, t: Instants, fail: Option<Failpoint>): Eff<Next>
    requires a.incidentId in w.incidents.items
  {
    if !a.state.Ready? then Ok(w, Returned)
    else if !Eligible(w, a, s, t.rechecked) then PersistBlock(w, a, t.rechecked)
    else
      var w1 := MoveIncidentFrom(w, a.incidentId, Approved, Mitigating, t.rechecked);
      var (w2, sent) :- UpdateAction(w1, a, ActionState.Sent, None, t.rechecked);
      var (_, _) :- Hook(w2, AfterSentBeforeProvider, fail);
      CallProvider(w2, sent, s, t)
  }

  /** The start of `_verify_known`, up to `adapter.verify`. */
  function BeginVerify(w: World, a: ActionCommand, now: int): Eff<Next> {
    Ok(MoveIncidentFrom(w, a.incidentId, Mitigating, Verifying, now), AwaitVerify(a))
  }

  datatype ProviderAnswer = Accepted(resource: Option<Id>) | Rejected | Ambiguous

  /** After `adapter.execute` answered or raised. */
  function AfterExecute(w: World, sent: ActionCommand, answer: ProviderAnswer, now: int,
                        fail: Option<Failpoint>): Eff<Next> {
    if answer.Ambiguous? || fail == Some(AfterProviderBeforeResult) then
      Settle(w, sent, OutcomeUnknown, OutcomeUnknownRow, now)
    else if answer.Rejected? then
      var (w1, failed) :- UpdateAction(w, sent, ActionState.Failed, None, now);
      var w2 := w1.(checks := w1.checks[Verify(sent.commandId) := Check(sent.incidentId, VerificationState.Failed, false, now)]);
      var (w3, _) :- AppendOutbox(w2, failed, ProviderFailedRow, now);
      Ok(w3, Returned)
    else
      var (w1, accepted) :- UpdateAction(w, sent, Acknowledged, answer.resource, now);
      var (_, _) :- Hook(w1, AfterResultBeforeVerification, fail);
      BeginVerify(w1, accepted, now)
  }

  /** The start of the executor's `reconcile_action`, up to `adapter.reconcile`. */
  function BeginReconcile(w: World, a: ActionCommand, now: int): Eff<Next> {
    var (w1, current) :- if a.state.Sent? then UpdateAction(w, a, OutcomeUnknown, None, now) else Ok(w, a);
    if current.state.OutcomeUnknown? || current.state.ReconciliationRequired? then Ok(w1, AwaitReconcile(current)) else Ok(w1, Returned)
  }

  datatype ReconcileAnswer = Present(resource: Option<Id>) | Absent | Unknown

  /** After the executor's `adapter.reconcile` answered. */
  function AfterReconcile(w: World, a: ActionCommand, answer: ReconcileAnswer, now: int): Eff<Next> {
    match answer
    case Present(resource) =>
      var (w1, accepted) :- UpdateAction(w, a, Acknowledged, resource.Or(a.providerResourceId), now);
      BeginVerify(w1, accepted, now)
    case Absent =>
      Settle(w, a, ActionState.Failed, ProviderFailedRow, now)
    case Unknown =>
      var (w1, pending) :- if a.state.ReconciliationRequired? then Ok(w, a) else UpdateAction(w, a, ReconciliationRequired, None, now);
      var (w2, _) :- AppendOutbox(w1, pending, OutcomeUnknownRow, now);
      Ok(w2, Returned)
  }

  datatype VerifyAnswer = VerifiedImproved | VerifiedResource | NoImprovement | VerifiedDegraded | Unavailable

  /** The executor's reading of a verification outcome. */
  function VerificationOf(v: VerifyAnswer): VerificationState {
    match v
    case VerifiedImproved => Improved
    case VerifiedResource => Improved
    case NoImprovement => Unchanged
    case VerifiedDegraded => Degraded
    case Unavailable => InsufficientEvidence
  }

  /** Saves a NETWORK_ACTION record; `mitigation_improved` holds exactly for VERIFIED_IMPROVED. */
  function SaveCheck(w: World, id: CheckId, incident: Id, v: VerifyAnswer, state: VerificationState, now: int): World {
    w.(checks := w.checks[id := Check(incident, state, v.VerifiedImproved?, now)],
       journal := if state.Improved? then w.journal.(improved := w.journal.improved + {id.commandId}) else w.journal)
  }

  predicate AllPlanActionsSucceeded(w: World, incident: Id, plan: int) {
    && (exists id <- w.actions.byId :: var b := w.actions.byId[id]; b.incidentId == incident && b.planVersion == plan && IsPlanType(b.commandType))
    && (forall id <- w.actions.byId :: var b := w.actions.byId[id];
        b.incidentId == incident && b.planVersion == plan && IsPlanType(b.commandType) ==> b.state.Success?)
  }

  predicate SomeImproved(w: World, incident: Id) {
    exists id <- w.checks :: w.checks[id].incidentId == incident && w.checks[id].improved
  }

  /** `_maybe_resolve`. */
  function MaybeResolve(w: World, incident: Id, plan: int, now: int): World {
    if !AllPlanActionsSucceeded(w, incident, plan) || !SomeImproved(w, incident) then w
    else
      Resolve(w, incident, Verifying, Some(Improved), IncidentOutcome.VerifiedImproved, None, now)
        .(leases := ReleaseAll(w.leases, incident))
  }

  /** After `adapter.verify` answered. */
  function AfterVerify(w: World, a: ActionCommand, v: VerifyAnswer, s: Settings, cap: Capability, freshId: Id, now: int,
                       fail: Option<Failpoint>): Eff<Next>
    requires w.actions.Filed()
  {
    var state := VerificationOf(v);
    var w1 := SaveCheck(w, Verify(a.commandId), a.incidentId, v, state, now);
    var (w2, _) :- WriteIncident(w1, a.incidentId, Some(state), None, None, now);
    var (_, _) :- Hook(w2, AfterVerificationBeforePublication, fail);
    Publish(w2, a, state, s, cap, freshId, now, fail)
  }

  /** The end of `_verify_known`: success, or straight into `_rollback` of a refuted mitigation, or later. */
  function Publish(w: World, a: ActionCommand, state: VerificationState, s: Settings, cap: Capability, freshId: Id,
                   now: int,
                   fail: Option<Failpoint>): Eff<Next>
    requires w.actions.Filed()
  {
    if state.Improved? then
      var (w1, success) :- UpdateAction(w, a, Success, None, now);
      var (w2, _) :- AppendOutbox(MaybeResolve(w1, a.incidentId, a.planVersion, now), success, VerifiedRow, now);
      Ok(w2, Returned)
    else if state.Unchanged? || state.Degraded? then
      var (w1, doomed) :- UpdateAction(w, a, RollbackRequired, None, now);
      BeginRollback(w1, doomed, s, cap, freshId, now, fail)
    else
      Settle(w, a, ReconciliationRequired, VerificationUnavailableRow, now)
  }

  /** The command that `_rollback` creates. */
  function RollbackCommand(a: ActionCommand, freshId: Id, now: int): ActionCommand
    requires IsPlanType(a.commandType)
  {
    ActionCommand(freshId, a.incidentId, RollbackType(a.commandType), a.resourceKey, a.planVersion, now, false,
                  Preconditions(None, None, None, false, false), Ready, None, 0, None, None, 0)
  }

  /** The start of `_rollback`, up to `adapter.rollback`. */
  function BeginRollback(w: World, a: ActionCommand, s: Settings, cap: Capability, freshId: Id, now: int,
                         fail: Option<Failpoint>): Eff<Next>
    requires w.actions.Filed()
  {
    if !ModeAllows(s) then
      var (w1, _) :- AppendOutbox(w, a, RecoveryRequiredRow, now);
      Ok(w1, Returned)
    else if !cap.rollback || a.providerResourceId.None? then RefuseRollback(w, a, now)
    else if !IsPlanType(a.commandType) then Raised(w)  // no entry in ROLLBACK_COMMAND
    else
      var (store, r) := w.actions.CreateOrGet(RollbackCommand(a, freshId, now));
      Undertake(w.(actions := store), a, r, now, fail)
  }

  /** A rollback that cannot be made is recorded as failed, and an incident under verification is escalated. */
  function RefuseRollback(w: World, a: ActionCommand, now: int): Eff<Next> {
    var (w1, _) :- SaveRecovery(w, a.incidentId, RecoveryState.Failed, now);
    var (w2, _) :- AppendOutbox(MoveIncidentFrom(w1, a.incidentId, Verifying, Escalated, now), a, RecoveryRequiredRow, now);
    Ok(w2, Returned)
  }

  /** The claim of the stored rollback command `r`; an orphaned SENT becomes unknown, a lost race ends here. */
  function Undertake(w: World, a: ActionCommand, r: ActionCommand, now: int, fail: Option<Failpoint>): Eff<Next> {
    if r.state.Sent? then
      var (w1, _) :- UpdateAction(w, r, OutcomeUnknown, None, now);
      Ok(w1, Returned)
    else if !r.state.Ready? then Ok(w, Returned)
    else
      match UpdateAction(w, r, ActionState.Sent, None, now)
      case Raised(w1) => Ok(w1, Returned)
      case Ok(w1, sent) => ClaimedRollback(w1, a, sent, now, fail)
  }

  /** From the SENT commit of the rollback command to the provider call. */
  function ClaimedRollback(w: World, a: ActionCommand, sent: ActionCommand, now: int,
                           fail: Option<Failpoint>): Eff<Next> {
    var (w1, _) :- SaveRecovery(w, a.incidentId, Releasing, now);
    var (_, _) :- Hook(w1, AfterRollbackSentBeforeProvider, fail);
    if !OwnershipCurrent(w1, a, now) then
      Settle(w1, sent, OutcomeUnknown, OutcomeUnknownRow, now)
    else
      Ok(w1.(journal := w1.journal.(calls := w1.journal.calls + [RollbackCall(a.commandId)])), AwaitRollback(a, sent))
  }

  /** After `adapter.rollback` answered or raised; `explicit` tells an explicit failure from a refusal. */
  function AfterRollback(w: World, a: ActionCommand, sent: ActionCommand, answer: ProviderAnswer, explicit: bool,
                         now: int,
                         fail: Option<Failpoint>): Eff<Next>
  {
    if answer.Ambiguous? || fail == Some(AfterRollbackProviderBeforeResult) then
      var (w1, unknown) :- UpdateAction(w, sent, OutcomeUnknown, None, now);
      var (w2, _) :- SaveRecovery(MoveIncidentFrom(w1, a.incidentId, Verifying, Recovering, now), a.incidentId, Partial, now);
      var (w3, _) :- AppendOutbox(w2, unknown, OutcomeUnknownRow, now);
      Ok(w3, Returned)
    else if answer.Rejected? then
      var (w1, failed) :- UpdateAction(w, sent, ActionState.Failed, None, now);
      if explicit then var (w2, _) :- SaveRecovery(w1, a.incidentId, RecoveryState.Failed, now); Ok(w2, Returned)
      else Ok(w1, Returned)
    else
      var (w1, accepted) :- UpdateAction(w, sent, Acknowledged, None, now);
      Ok(w1, AwaitVerifyRollback(a, accepted))
  }

  /** After `adapter.verify_rollback` answered. */
  function AfterVerifyRollback(w: World, a: ActionCommand, accepted: ActionCommand, verified: bool,
                               now: int): Eff<Next> {
    var w1 := MoveIncidentFrom(w, a.incidentId, Verifying, Recovering, now);
    if !verified then
      var (w2, pending) :- UpdateAction(w1, accepted, ReconciliationRequired, None, now);
      var (w3, _) :- SaveRecovery(w2, a.incidentId, Partial, now);
      var (w4, _) :- AppendOutbox(w3, pending, RecoveryRequiredRow, now);
      Ok(w4, Returned)
    else
      var w1' := w1.(journal := w1.journal.(undone := w1.journal.undone + {a.commandId, accepted.commandId},
                                                        recovered := w1.journal.recovered + {a.incidentId}));
      FinishRollback(w1', a, accepted, now)
  }

  /** `if original.state is ROLLBACK_REQUIRED`, it becomes ROLLED_BACK too. */
  function UndoOriginal(w: World, a: ActionCommand, now: int): Eff<ActionCommand> {
    var original := if a.commandId in w.actions.byId then w.actions.byId[a.commandId] else a;
    if original.state.RollbackRequired? then UpdateAction(w, original, RolledBack, None, now) else Ok(w, original)
  }

  /** The writes after a verified rollback. */
  function FinishRollback(w: World, a: ActionCommand, accepted: ActionCommand, now: int): Eff<Next> {
    var (w1, completed) :- UpdateAction(w, accepted, RolledBack, None, now);
    var (w2, _) :- UndoOriginal(w1, a, now);
    var (w3, _) :- SaveRecovery(w2, a.incidentId, RecoveryState.Complete, now);
    var (w4, _) :- AppendOutbox(ResolveRolledBack(w3, a.incidentId, now), completed, RolledBackRow, now);
    Ok(w4, Returned)
  }

  /** `execute_ready_action`, up to its first await. */
  function Start(w: World, id: Id, s: Settings, cap: Capability, freshId: Id, t: Instants,
                 fail: Option<Failpoint>): Eff<Next>
    requires w.actions.Filed()
  {
    if id !in w.actions.byId then Raised(w)
    else
      var a := w.actions.byId[id];
      match a.state
      case OutcomeUnknown => BeginReconcile(w, a, t.checked)
      case ReconciliationRequired => BeginReconcile(w, a, t.checked)
      case Acknowledged => BeginVerify(w, a, t.checked)
      case RollbackRequired => BeginRollback(w, a, s, cap, freshId, t.checked, fail)
      case Ready => StartReady(w, a, s, cap, t, fail)
      case _ => Ok(w, Returned)
  }
}
