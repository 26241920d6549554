/** Reconstruction after a restart (platform_lifecycle.py): recovery projections are repaired, orphaned SENT
    commands become unknown, and what was reconstructed is checked. */
module PlatformLifecycle {
  import opened Options
  import opened DurableCore
  import opened IncidentRepository
  import opened RecoveryConsistency
  import E = Execution
  import opened ExecutionService
  import PlatformEvents

  /** The incidents after `repair_incident_recovery_projection` of every active one. */
  function RepairedAll(items: map<Id, Incident>, recovery: map<Id, Recovery>, now: int): map<Id, Incident> {
    map id | id in items :: RepairedOne(items[id], id, recovery, now)
  }

  function RepairedOne(i: Incident, id: Id, recovery: map<Id, Recovery>, now: int): Incident {
    if !Closed(i.state) && id in recovery then Repaired(i, recovery[id].state, now) else i
  }

  function Reconstructed(w: E.World, now: int): E.World {
    w.(incidents := w.incidents.(items := RepairedAll(w.incidents.items, w.recovery, now)), actions := w.actions.MarkRestartUnknown())
  }

  // ---------------------------------------------------------------- the checks

  predicate Active(w: E.World, id: Id) { id in w.incidents.items && !Closed(w.incidents.items[id].state) }

  predicate Unfinished(s: ActionState) {
    s.Pending? || s.Ready? || s.Sent? || s.OutcomeUnknown? || s.ReconciliationRequired?
  }

  predicate InProgress(s: RecoveryState) { s.Pending? || s.Releasing? || s.VerifyingRelease? }

  /** Active incidents are named, and no two of them share a correlation key. */
  predicate IncidentsIndexed(w: E.World) {
    && (forall id <- w.incidents.items :: Active(w, id) ==> id != [] && w.incidents.items[id].correlationKey != [])
    && (forall a <- w.incidents.items, b <- w.incidents.items ::
        Active(w, a) && Active(w, b) && w.incidents.items[a].correlationKey == w.incidents.items[b].correlationKey ==> a == b)
  }

  predicate LeasesCovered(w: E.World) {
    forall k <- w.leases :: w.leases[k].owned ==> k != [] && Active(w, w.leases[k].owner)
  }

  predicate CommandsCovered(w: E.World) {
    forall id <- w.actions.byId :: Unfinished(w.actions.byId[id].state) ==> Active(w, w.actions.byId[id].incidentId)
  }

  predicate RecoveriesCovered(w: E.World) {
    forall id <- w.recovery :: InProgress(w.recovery[id].state) ==> Active(w, id)
  }

  /** The verification records that are PENDING: no verification of a mitigation is, but every read that found its
      resource available or on its way. */
  predicate VerificationsCovered(w: E.World) {
    && (forall c <- w.checks :: w.checks[c].state.Pending? ==> Active(w, w.checks[c].incidentId))
    && (forall id <- w.attempts, r <- w.attempts[id] :: r.State().Pending? ==> Active(w, r.incidentId))
  }

  /** `_validate_reconstruction`, for the records that the services keep: whatever is owned, unfinished, pending or in
      progress belongs to an active incident. */
  predicate Accepts(w: E.World) {
    IncidentsIndexed(w) && LeasesCovered(w) && CommandsCovered(w) && VerificationsCovered(w) && RecoveriesCovered(w)
  }

  predicate Open(w: E.World, id: Id) {
    && id in w.incidents.items
    && var s := w.incidents.items[id].state; s != Resolved && s != Blocked && s != IncidentState.Failed && s != Cancelled
  }

  /** What a restart accepts, said on the records.  An open incident has a name and a correlation of its own, and to one
      belongs every owned lease, every command that is not at its end or waiting for its verification, every read that
      found its resource there or coming, and every recovery that has begun and is neither partial nor at its end. */
  ghost predicate Coherent(w: E.World) {
    && (forall id <- w.incidents.items :: Open(w, id) ==> id != [] && w.incidents.items[id].correlationKey != [])
    && (forall a <- w.incidents.items, b <- w.incidents.items ::
        Open(w, a) && Open(w, b) && a != b ==> w.incidents.items[a].correlationKey != w.incidents.items[b].correlationKey)
    && (forall k <- w.leases :: w.leases[k].owned ==> k != [] && Open(w, w.leases[k].owner))
    && (forall id <- w.actions.byId ::
        var s := w.actions.byId[id].state;
        s == ActionState.Pending || s == Ready || s == Sent || s == OutcomeUnknown || s == ReconciliationRequired ==>
          Open(w, w.actions.byId[id].incidentId))
    && (forall c <- w.checks :: w.checks[c].state == VerificationState.Pending ==> Open(w, w.checks[c].incidentId))
    && (forall id <- w.attempts, r <- w.attempts[id] ::
        r.outcome == E.ProviderAvailable || r.outcome == E.WaitingForProvider ==> Open(w, r.incidentId))
    && (forall id <- w.recovery ::
        var s := w.recovery[id].state; s == RecoveryState.Pending || s == Releasing || s == VerifyingRelease ==> Open(w, id))
  }

  lemma OpenExactly(w: E.World, id: Id)
    ensures Active(w, id) <==> Open(w, id)
  {}

  lemma AcceptsExactly(w: E.World)
    ensures Accepts(w) <==> Coherent(w)
  {
    forall id
      ensures Active(w, id) <==> Open(w, id)
    {
      OpenExactly(w, id);
    }
  }

  /** What the restart reads beside the records of the executor: the network projection, the latest checkpoint, 0
      and `None` standing for a missing one, and the length of the event log. */
  datatype Views = Views(
    network: map<Id, PlatformEvents.Entity>, checkpointSequence: int,
    checkpointProjection: Option<map<Id, PlatformEvents.Entity>>, eventSequence: int)

  /** The rest of `_validate_reconstruction`. */
  predicate ViewsAgree(v: Views) {
    && (forall id <- v.network :: v.network[id].entityId == id)
    && v.checkpointSequence <= v.eventSequence
    && (v.checkpointProjection.Some? && v.checkpointSequence == v.eventSequence ==> v.checkpointProjection.value == v.network)
  }

  /** Entities are filed under their names, no checkpoint is ahead of the log, and one that is level with it holds the
      network projection. */
  predicate ViewsFit(network: map<Id, PlatformEvents.Entity>, v: Views) {
    && (forall id <- network :: network[id].entityId == id)
    && !(v.eventSequence < v.checkpointSequence)
    && !(v.checkpointSequence == v.eventSequence && v.checkpointProjection.Some? && v.checkpointProjection.value != network)
  }

  /** `reconstruct_platform_state`: the writes, then the checks. */
  method ReconstructPlatformState(service: DurableActionExecutionService, views: Views, now: int)
    returns (accepted: bool)
    requires service.Valid()
    modifies service.incidents`items, service.actions
    ensures service.Valid() && service.World() == Reconstructed(old(service.World()), now)
    ensures accepted <==> Coherent(service.World()) && ViewsFit(views.network, views)
    ensures accepted <==> old(Coherent(service.World())) && ViewsFit(views.network, views)
    ensures forall id <- service.actions.byId :: !service.actions.byId[id].state.Sent?
    ensures forall id <- service.incidents.items :: Open(service.World(), id) && id in service.recovery.items ==>
              service.incidents.items[id].recovery == service.recovery.items[id].state
  {
    ghost var w := service.World();
    RepairIncidents(service, now);
    service.actions.MarkRestartUnknown();
    ReconstructedShows(w, now, service.World());
    accepted := Accepts(service.World()) && ViewsAgree(views);
  }

  /** What the restart leaves: no command is SENT, and an open incident shows its recovery. */
  lemma ReconstructedShows(w: E.World, now: int, v: E.World)
    requires v == Reconstructed(w, now)
    ensures Accepts(v) <==> Coherent(v)
    ensures Coherent(v) <==> Coherent(w)
    ensures forall id <- v.actions.byId :: !v.actions.byId[id].state.Sent?
    ensures forall id <- v.incidents.items :: Open(v, id) && id in v.recovery ==>
              v.incidents.items[id].recovery == v.recovery[id].state
  {
    AcceptedBeforehand(w, now);
    AcceptsExactly(w);
    AcceptsExactly(v);
  }

  method RepairIncidents(service: DurableActionExecutionService, now: int)
    requires service.Valid()
    modifies service.incidents`items
    ensures service.Valid()
    ensures service.incidents.items == RepairedAll(old(service.incidents.items), service.recovery.items, now)
  {
    var recovery := service.recovery.items;
    ghost var was := service.incidents.items;
    var todo := service.incidents.items.Keys;
    while todo != {}
      invariant service.Valid() && todo <= was.Keys && service.incidents.items.Keys == was.Keys
      invariant forall id <- was :: service.incidents.items[id] == if id in todo then was[id] else RepairedOne(was[id], id, recovery, now)
      decreases todo
    {
      var id :| id in todo;
      if !Closed(service.incidents.items[id].state) {
        service.recovery.RepairAlone(id, 3, now);
      }
      todo := todo - {id};
    }
    assert service.incidents.items == RepairedAll(was, recovery, now);
  }

  /** Whether a state will reconstruct can be told before the restart. */
  lemma AcceptedBeforehand(w: E.World, now: int)
    ensures Accepts(Reconstructed(w, now)) <==> Accepts(w)
  {
    var v := Reconstructed(w, now);
    forall id
      ensures Active(v, id) <==> Active(w, id)
      ensures Active(w, id) ==> v.incidents.items[id].correlationKey == w.incidents.items[id].correlationKey
    {}
    SameIncidentsIndexed(w, v);
    forall id
      ensures id in v.actions.byId <==> id in w.actions.byId
      ensures id in w.actions.byId ==>
                && (Unfinished(v.actions.byId[id].state) <==> Unfinished(w.actions.byId[id].state))
                && v.actions.byId[id].incidentId == w.actions.byId[id].incidentId
    {}
    SameCovered(w, v);
  }

  lemma SameIncidentsIndexed(w: E.World, v: E.World)
    requires v.incidents.items.Keys == w.incidents.items.Keys
    requires forall id :: Active(v, id) <==> Active(w, id)
    requires forall id :: Active(w, id) ==> v.incidents.items[id].correlationKey == w.incidents.items[id].correlationKey
    ensures IncidentsIndexed(v) <==> IncidentsIndexed(w)
  {}

  lemma SameCovered(w: E.World, v: E.World)
    requires forall id :: Active(v, id) <==> Active(w, id)
    requires v.leases == w.leases && v.checks == w.checks && v.attempts == w.attempts && v.recovery == w.recovery
    requires forall id :: id in v.actions.byId <==> id in w.actions.byId
    requires forall id <- w.actions.byId ::
               && (Unfinished(v.actions.byId[id].state) <==> Unfinished(w.actions.byId[id].state))
               && v.actions.byId[id].incidentId == w.actions.byId[id].incidentId
    ensures LeasesCovered(v) == LeasesCovered(w) && CommandsCovered(v) == CommandsCovered(w)
    ensures VerificationsCovered(v) == VerificationsCovered(w) && RecoveriesCovered(v) == RecoveriesCovered(w)
  {}

  // ---------------------------------------------------------------- which closed incidents reconstruct

  predicate HoldsLease(w: E.World, incident: Id) {
    exists k <- w.leases :: w.leases[k].owned && w.leases[k].owner == incident
  }

  /** Nothing that a restart checks is left of the incident. */
  predicate NothingLeft(w: E.World, incident: Id) {
    && !HoldsLease(w, incident)
    && (forall id <- w.actions.byId :: !(Unfinished(w.actions.byId[id].state) && w.actions.byId[id].incidentId == incident))
    && !HasPendingRead(w, incident) && !Recovers(w, incident)
  }

  /** A verification of the incident is PENDING on record. */
  predicate HasPendingRead(w: E.World, incident: Id) {
    || (exists c <- w.checks :: w.checks[c].state.Pending? && w.checks[c].incidentId == incident)
    || (exists id <- w.attempts, r <- w.attempts[id] :: r.State().Pending? && r.incidentId == incident)
  }

  predicate Recovers(w: E.World, incident: Id) { incident in w.recovery && InProgress(w.recovery[incident].state) }

  /** On the way from `w` to `v` nothing that a restart checks was gained, except for one incident. */
  ghost predicate GainsOnlyFor(w: E.World, v: E.World, incident: Id) {
    && v.incidents.items.Keys == w.incidents.items.Keys
    && (forall id <- w.incidents.items :: id != incident ==>
        v.incidents.items[id].state == w.incidents.items[id].state
          && v.incidents.items[id].correlationKey == w.incidents.items[id].correlationKey)
    && (forall k <- v.leases :: v.leases[k].owned ==>
        v.leases[k].owner == incident || (k in w.leases && w.leases[k].owned && w.leases[k].owner == v.leases[k].owner))
    && (forall id <- v.actions.byId :: Unfinished(v.actions.byId[id].state) ==>
        || v.actions.byId[id].incidentId == incident
        || (id in w.actions.byId && Unfinished(w.actions.byId[id].state) && w.actions.byId[id].incidentId == v.actions.byId[id].incidentId))
    && (forall id <- v.recovery :: id != incident && InProgress(v.recovery[id].state) ==> id in w.recovery && InProgress(w.recovery[id].state))
    && (forall c <- v.checks :: v.checks[c].state.Pending? ==> c in w.checks && w.checks[c] == v.checks[c])
    && v.attempts == w.attempts
  }

  /** `v` came from `w` by closing one incident. */
  ghost predicate Closes(w: E.World, v: E.World, incident: Id) { GainsOnlyFor(w, v, incident) && !Active(v, incident) }

  lemma ClosesActive(w: E.World, v: E.World, incident: Id, id: Id)
    requires Closes(w, v, incident)
    ensures Active(v, id) <==> Active(w, id) && id != incident
  {}

  lemma ClosedIndexed(w: E.World, v: E.World, incident: Id)
    requires IncidentsIndexed(w) && Closes(w, v, incident)
    ensures IncidentsIndexed(v)
  {
    forall id
      ensures Active(v, id) <==> Active(w, id) && id != incident
    {
      ClosesActive(w, v, incident, id);
    }
  }

  lemma ClosedCovered(w: E.World, v: E.World, incident: Id)
    requires Accepts(w) && Closes(w, v, incident)
    ensures LeasesCovered(v) <==> !HoldsLease(v, incident)
    ensures CommandsCovered(v) <==>
            forall id <- v.actions.byId :: !(Unfinished(v.actions.byId[id].state) && v.actions.byId[id].incidentId == incident)
    ensures RecoveriesCovered(v) <==> !Recovers(v, incident)
    ensures VerificationsCovered(v) <==> !HasPendingRead(v, incident)
  {
    forall id
      ensures Active(v, id) <==> Active(w, id) && id != incident
    {
      ClosesActive(w, v, incident, id);
    }
  }

  /** A state in which an incident was just closed reconstructs exactly when nothing is left of it. */
  lemma ClosedReconstructs(w: E.World, v: E.World, incident: Id, later: int)
    requires Accepts(w) && Closes(w, v, incident)
    ensures Accepts(Reconstructed(v, later)) <==> NothingLeft(v, incident)
  {
    AcceptedBeforehand(v, later);
    ClosedIndexed(w, v, incident);
    ClosedCovered(w, v, incident);
  }

  /** The incident has an unfinished command besides `done`. */
  predicate HasSibling(w: E.World, incident: Id, done: Option<Id>) {
    exists id <- w.actions.byId :: Some(id) != done && Unfinished(w.actions.byId[id].state) && w.actions.byId[id].incidentId == incident
  }

  /** The commands of `v` are those of `w`, and only `done` may have become finished. */
  ghost predicate Finishes(w: E.World, v: E.World, done: Option<Id>) {
    && v.actions.byId.Keys == w.actions.byId.Keys
    && forall id <- v.actions.byId ::
         if Some(id) == done then !Unfinished(v.actions.byId[id].state)
         else (Unfinished(v.actions.byId[id].state) <==> Unfinished(w.actions.byId[id].state))
              && v.actions.byId[id].incidentId == w.actions.byId[id].incidentId
  }

  lemma FinishedSiblings(w: E.World, v: E.World, incident: Id, done: Option<Id>)
    requires Finishes(w, v, done)
    ensures (forall id <- v.actions.byId :: !(Unfinished(v.actions.byId[id].state) && v.actions.byId[id].incidentId == incident))
            <==> !HasSibling(w, incident, done)
  {}

  /** What closing did, apart from the commands. */
  ghost predicate ClosesOnly(w: E.World, v: E.World, incident: Id) {
    && v.incidents.items.Keys == w.incidents.items.Keys && !Active(v, incident) && v.leases == w.leases
    && (forall id <- w.incidents.items :: id != incident ==> v.incidents.items[id] == w.incidents.items[id])
    && v.recovery.Keys <= w.recovery.Keys + {incident}
    && (forall id <- v.recovery :: id != incident ==> v.recovery[id] == w.recovery[id])
    && v.checks == w.checks && v.attempts == w.attempts
  }

  lemma WritesClose(w: E.World, v: E.World, incident: Id, done: Option<Id>)
    requires ClosesOnly(w, v, incident) && Finishes(w, v, done)
    ensures Closes(w, v, incident)
  {}

  lemma SameLease(w: E.World, v: E.World, incident: Id)
    requires v.leases == w.leases
    ensures HoldsLease(v, incident) == HoldsLease(w, incident)
  {}

  lemma SamePending(w: E.World, v: E.World, incident: Id)
    requires v.checks == w.checks && v.attempts == w.attempts
    ensures HasPendingRead(v, incident) == HasPendingRead(w, incident)
  {}

  lemma ClosedByWrites(w: E.World, v: E.World, incident: Id, done: Option<Id>, later: int)
    requires Accepts(w) && ClosesOnly(w, v, incident) && Finishes(w, v, done)
    ensures Accepts(Reconstructed(v, later)) <==>
            !HoldsLease(w, incident) && !Recovers(v, incident) && !HasSibling(w, incident, done) && !HasPendingRead(w, incident)
  {
    FinishedSiblings(w, v, incident, done);
    WritesClose(w, v, incident, done);
    SameLease(w, v, incident);
    SamePending(w, v, incident);
    ClosedReconstructs(w, v, incident, later);
  }

  lemma UpdateFinishes(w: E.World, a: ActionCommand, state: ActionState, now: int)
    requires !Unfinished(state) && E.UpdateAction(w, a, state, None, now).Ok?
    ensures Finishes(w, E.UpdateAction(w, a, state, None, now).world, Some(a.commandId))
  {}

  /** The write of a command that was finished before and is finished afterwards. */
  lemma RewriteFinishes(w: E.World, a: ActionCommand, state: ActionState, now: int)
    requires !Unfinished(state) && (a.commandId in w.actions.byId ==> w.actions.byId[a.commandId] == a && !Unfinished(a.state))
    ensures Finishes(w, E.UpdateAction(w, a, state, None, now).world, None)
  {}

  lemma UndoFinishes(w: E.World, a: ActionCommand, now: int)
    requires w.actions.Filed()
    ensures Finishes(w, E.UndoOriginal(w, a, now).world, None)
  {
    var original := if a.commandId in w.actions.byId then w.actions.byId[a.commandId] else a;
    if original.state.RollbackRequired? { RewriteFinishes(w, original, RolledBack, now); }
  }

  lemma FinishesTrans(u: E.World, v: E.World, w: E.World, done: Option<Id>)
    requires Finishes(u, v, done) && Finishes(v, w, None)
    ensures Finishes(u, w, done)
  {}

  /** The incident's part of a verified rollback. */
  lemma ResolveCloses(w: E.World, incident: Id, now: int)
    requires E.InState(w, incident, Recovering)
    ensures var v := E.ResolveRolledBack(w, incident, now);
            E.InState(v, incident, Resolved) && ClosesOnly(w, v, incident) && v.actions == w.actions && v.recovery == w.recovery
  {
    assert E.InState(E.MoveIncidentFrom(w, incident, Recovering, Resolved, now), incident, Resolved);
  }

  lemma CompleteKeeps(w: E.World, incident: Id, now: int)
    requires E.InState(w, incident, Recovering) && E.SaveRecovery(w, incident, RecoveryState.Complete, now).Ok?
    ensures var v := E.SaveRecovery(w, incident, RecoveryState.Complete, now).world;
            && E.InState(v, incident, Recovering) && v.actions == w.actions && v.leases == w.leases && !Recovers(v, incident)
            && v.checks == w.checks && v.attempts == w.attempts
            && v.incidents.items.Keys == w.incidents.items.Keys && v.recovery.Keys == w.recovery.Keys + {incident}
            && (forall id <- w.incidents.items :: id != incident ==> v.incidents.items[id] == w.incidents.items[id])
            && (forall id <- v.recovery :: id != incident ==> v.recovery[id] == w.recovery[id])
  {}

  lemma RollbackCloses(w: E.World, a: ActionCommand, accepted: ActionCommand, now: int)
    requires w.actions.Filed() && E.InState(w, a.incidentId, Recovering) && E.FinishRollback(w, a, accepted, now).Ok?
    ensures var v := E.FinishRollback(w, a, accepted, now).world;
            && E.InState(v, a.incidentId, Resolved) && ClosesOnly(w, v, a.incidentId) && !Recovers(v, a.incidentId)
            && Finishes(w, v, Some(accepted.commandId))
  {
    var w1 := E.UpdateAction(w, accepted, RolledBack, None, now).world;
    var w2 := E.UndoOriginal(w1, a, now).world;
    var w3 := E.SaveRecovery(w2, a.incidentId, RecoveryState.Complete, now).world;
    UpdateFinishes(w, accepted, RolledBack, now);
    UndoFinishes(w1, a, now);
    FinishesTrans(w, w1, w2, Some(accepted.commandId));
    assert w2 == w.(actions := w2.actions);
    CompleteKeeps(w2, a.incidentId, now);
    ResolveCloses(w3, a.incidentId, now);
    var w4 := E.ResolveRolledBack(w3, a.incidentId, now);
    var v := E.FinishRollback(w, a, accepted, now).world;
    assert v == w4.(outbox := v.outbox);
  }

  /** A verified rollback resolves its incident and keeps the lease.  The state reconstructs exactly when the
      incident held no lease, had no other unfinished command and no PENDING read on record. */
  lemma RollbackReconstructs(w: E.World, a: ActionCommand, accepted: ActionCommand, now: int, later: int)
    requires Accepts(w) && w.actions.Filed() && E.InState(w, a.incidentId, Recovering)
    requires E.FinishRollback(w, a, accepted, now).Ok?
    ensures var v := E.FinishRollback(w, a, accepted, now).world;
            && E.InState(v, a.incidentId, Resolved)
            && (Accepts(Reconstructed(v, later)) <==>
                !HoldsLease(w, a.incidentId) && !HasSibling(w, a.incidentId, Some(accepted.commandId))
                  && !HasPendingRead(w, a.incidentId))
  {
    RollbackCloses(w, a, accepted, now);
    ClosedByWrites(w, E.FinishRollback(w, a, accepted, now).world, a.incidentId, Some(accepted.commandId), later);
  }

  lemma BlockCloses(w: E.World, incident: Id, now: int)
    requires E.InState(w, incident, Approved)
    ensures var v := E.MoveIncidentFrom(w, incident, Approved, Blocked, now);
            E.InState(v, incident, Blocked) && ClosesOnly(w, v, incident) && v.actions == w.actions && v.recovery == w.recovery
  {}

  /** The command that a block finishes. */
  function BlockedCommand(w: E.World, a: ActionCommand): Option<Id>
    requires a.commandId in w.actions.byId
  {
    if w.actions.byId[a.commandId].state.Ready? then Some(a.commandId) else None
  }

  /** The block itself, once the command is written. */
  lemma BlockAfter(w: E.World, w1: E.World, incident: Id, done: Option<Id>, now: int, v: E.World)
    requires E.InState(w, incident, Approved) && w1 == w.(actions := w1.actions) && Finishes(w, w1, done)
    requires v == E.MoveIncidentFrom(w1, incident, Approved, Blocked, now).(outbox := v.outbox)
    ensures E.InState(v, incident, Blocked) && ClosesOnly(w, v, incident) && v.recovery == w.recovery && Finishes(w, v, done)
  {
    BlockCloses(w1, incident, now);
  }

  lemma PersistBlockCloses(w: E.World, a: ActionCommand, now: int)
    requires w.actions.Filed() && E.InState(w, a.incidentId, Approved) && a.commandId in w.actions.byId
             && E.PersistBlock(w, a, now).Ok?
    ensures var v := E.PersistBlock(w, a, now).world;
            && E.InState(v, a.incidentId, Blocked) && ClosesOnly(w, v, a.incidentId) && v.recovery == w.recovery
            && Finishes(w, v, BlockedCommand(w, a))
  {
    var current := w.actions.byId[a.commandId];
    var v := E.PersistBlock(w, a, now).world;
    var w1 := if current.state.Ready? then E.UpdateAction(w, current, ActionState.Failed, None, now).world else w;
    if current.state.Ready? { UpdateFinishes(w, current, ActionState.Failed, now); }
    PersistBlockIs(w, a, now, w1, v);
    BlockAfter(w, w1, a.incidentId, BlockedCommand(w, a), now, v);
  }

  lemma PersistBlockIs(w: E.World, a: ActionCommand, now: int, w1: E.World, v: E.World)
    requires w.actions.Filed() && a.commandId in w.actions.byId && E.PersistBlock(w, a, now) == E.Ok(v, E.Returned)
    requires var current := w.actions.byId[a.commandId];
             w1 == if current.state.Ready? then E.UpdateAction(w, current, ActionState.Failed, None, now).world else w
    ensures v == E.MoveIncidentFrom(w1, a.incidentId, Approved, Blocked, now).(outbox := v.outbox)
    ensures w.actions.byId[a.commandId].state.Ready? ==>
              E.UpdateAction(w, w.actions.byId[a.commandId], ActionState.Failed, None, now).Ok?
  {}

  /** Blocking an APPROVED incident: the state reconstructs exactly when it held no lease, was not recovering, had no
      PENDING read, and no unfinished command besides the READY one that was blocked. */
  lemma BlockReconstructs(w: E.World, a: ActionCommand, now: int, later: int)
    requires Accepts(w) && w.actions.Filed() && E.InState(w, a.incidentId, Approved) && a.commandId in w.actions.byId
    requires E.PersistBlock(w, a, now).Ok?
    ensures Accepts(Reconstructed(E.PersistBlock(w, a, now).world, later)) <==>
            && !HoldsLease(w, a.incidentId) && !Recovers(w, a.incidentId) && !HasPendingRead(w, a.incidentId)
            && !HasSibling(w, a.incidentId, BlockedCommand(w, a))
  {
    PersistBlockCloses(w, a, now);
    ClosedByWrites(w, E.PersistBlock(w, a, now).world, a.incidentId, BlockedCommand(w, a), later);
  }

  lemma MitigationCloses(w: E.World, incident: Id, plan: int, now: int)
    requires E.InState(w, incident, Verifying) && E.AllPlanActionsSucceeded(w, incident, plan) && E.SomeImproved(w, incident)
    ensures var v := E.MaybeResolve(w, incident, plan, now);
            && E.InState(v, incident, Resolved) && !HoldsLease(v, incident) && Closes(w, v, incident)
            && v.actions == w.actions && v.checks == w.checks && v.attempts == w.attempts && v.recovery == w.recovery
  {
    assert E.InState(E.MoveIncidentFrom(w, incident, Verifying, Resolved, now), incident, Resolved);
  }

  /** A verified mitigation gives the leases of its incident back.  The state reconstructs exactly when the incident
      was not recovering, no command of it, of whatever plan, was unfinished, and no read of it was PENDING: the last
      never holds when it was the reconciler that completed the mitigation (`StrandedReads`). */
  lemma MitigationReconstructs(w: E.World, incident: Id, plan: int, now: int, later: int)
    requires Accepts(w) && E.InState(w, incident, Verifying)
    requires E.AllPlanActionsSucceeded(w, incident, plan) && E.SomeImproved(w, incident)
    ensures var v := E.MaybeResolve(w, incident, plan, now);
            && E.InState(v, incident, Resolved) && !HoldsLease(v, incident)
            && (Accepts(Reconstructed(v, later)) <==>
                !Recovers(w, incident) && !HasSibling(w, incident, None) && !HasPendingRead(w, incident))
  {
    var v := E.MaybeResolve(w, incident, plan, now);
    MitigationCloses(w, incident, plan, now);
    FinishedSiblings(w, v, incident, None);
    SamePending(w, v, incident);
    ClosedReconstructs(w, v, incident, later);
  }
}
