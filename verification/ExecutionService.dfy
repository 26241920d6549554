/** The executor in the form of its source: a service whose methods write the repositories step by step
    (durable_execution.py).  Every method is proved against the segment function it implements. */
module ExecutionService {
  import opened Options
  import opened DurableCore
  import IncidentRepository
  import OutboxRepository
  import RecoveryConsistency
  import E = Execution
  import C = CallConditions
  import R = Reconciliation
  import O = ExecutionOutcomes
  import S = ExecutionSegments
  import D = ExecutionStarts

  // ---------------------------------------------------------------- the remaining repositories

  /** The resource is owned, and the lease has not run out. */
  predicate Held(leases: map<Id, E.Lease>, key: Id, now: int) {
    key in leases && leases[key].owned && (leases[key].expiresAt.Some? ==> now < leases[key].expiresAt.value)
  }

  /** The resource is leased to `owner` until `end`; a lease that was owned before is counted on. */
  function Reclaimed(leases: map<Id, E.Lease>, key: Id, owner: Id, end: int): map<Id, E.Lease> {
    leases[key := E.Lease(owner, Some(end), true, if key in leases && leases[key].owned then leases[key].version + 1 else 0)]
  }

  class OwnershipRepository {
    var leases: map<Id, E.Lease>

    constructor ()
      ensures leases == map[]
    {
      leases := map[];
    }

    /** `acquire`: an expired lease is reclaimed, a live one of another incident is not. */
    method Acquire(key: Id, owner: Id, now: int) returns (acquired: bool)
      modifies this
      ensures acquired <==> old(E.Acquire(leases, key, owner, now)).Some?
      ensures leases == if acquired then old(E.Acquire(leases, key, owner, now)).value else old(leases)
      ensures acquired <==> !(Held(old(leases), key, now) && old(leases)[key].owner != owner)
      ensures Held(old(leases), key, now) ==> leases == old(leases)
      ensures !Held(old(leases), key, now) ==> leases == Reclaimed(old(leases), key, owner, now + 300)
    {
      if key in leases && leases[key].owned {
        if E.Unexpired(leases[key], now) { return leases[key].owner == owner; }
        leases := leases[key := E.Lease(owner, Some(now + 300), true, leases[key].version + 1)];
      } else {
        leases := leases[key := E.Lease(owner, Some(now + 300), true, 0)];
      }
      return true;
    }

    /** Releases, one by one, every lease the incident holds. */
    method ReleaseAll(incident: Id)
      modifies this
      ensures leases == E.ReleaseAll(old(leases), incident)
    {
      var was := leases;
      var current := leases;
      var todo := was.Keys;
      while todo != {}
        invariant current.Keys == was.Keys && todo <= was.Keys
        invariant forall k <- was :: current[k] ==
                    if k !in todo && was[k].owned && was[k].owner == incident
                    then was[k].(owned := false, version := was[k].version + 1) else was[k]
        decreases todo
      {
        var k :| k in todo;
        if current[k].owned && current[k].owner == incident {
          current := current[k := current[k].(owned := false, version := current[k].version + 1)];
        }
        todo := todo - {k};
      }
      leases := current;
      assert leases == E.ReleaseAll(was, incident);
    }
  }

  class CostLedger {
    var entries: seq<E.Charge>

    constructor ()
      ensures entries == []
    {
      entries := [];
    }

    /** `append`: the ledger identity is that of the command; a different entry under it is a conflict. */
    method Append(entry: E.Charge) returns (ok: bool)
      modifies this
      ensures (exists c <- old(entries) :: c.commandId == entry.commandId) ==> entries == old(entries)
      ensures (forall c <- old(entries) :: c.commandId != entry.commandId) ==> ok && entries == old(entries) + [entry]
      ensures ok ==> entry in entries
    {
      for i := 0 to |entries|
        invariant entries == old(entries)
        invariant forall j :: 0 <= j < i ==> entries[j].commandId != entry.commandId
      {
        if entries[i].commandId == entry.commandId {
          assert entries[i] in entries;
          return entries[i] == entry;
        }
      }
      assert forall c <- entries :: c.commandId != entry.commandId;
      entries := entries + [entry];
      return true;
    }

    /** `incident_total`. */
    method IncidentTotal(incident: Id) returns (total: nat)
      ensures total == E.Total(entries, incident)
    {
      total := 0;
      for i := 0 to |entries|
        invariant total == E.Total(entries[..i], incident)
      {
        assert entries[..i + 1][..i] == entries[..i];
        if entries[i].incidentId == incident { total := total + entries[i].cents; }
      }
      assert entries[..|entries|] == entries;
    }
  }

  /** What costs nothing, or is charged for, adds nothing; a new charge is 75 or 20 cents; and a charge that is filed
      for another incident is a conflict. */
  ghost predicate ChargedOnce(before: seq<E.Charge>, after: seq<E.Charge>, a: ActionCommand, ok: bool) {
    if C.Priced(a, 0) || C.Charges(before, a) then ok && after == before
    else if exists x <- before :: x.commandId == a.commandId then !ok && after == before
    else ok && |after| == |before| + 1 && after == before + [E.Charge(a.commandId, a.incidentId, after[|before|].cents)]
         && C.Priced(a, after[|before|].cents)
  }

  class VerificationRepository {
    var checks: map<E.CheckId, E.Check>
    var attempts: map<Id, seq<E.ReadRecord>>
    var trust: map<Id, seq<E.TrustRecord>>

    constructor ()
      ensures checks == map[] && attempts == map[] && trust == map[]
    {
      checks, attempts, trust := map[], map[], map[];
    }

    method SaveCheck(id: E.CheckId, check: E.Check)
      modifies this`checks
      ensures checks == old(checks)[id := check]
    {
      checks := checks[id := check];
    }

    method SaveRead(r: E.ReadRecord)
      modifies this`attempts
      ensures attempts == old(attempts)[r.commandId := R.SaveRow(if r.commandId in old(attempts) then old(attempts)[r.commandId] else [], r)]
    {
      var rows := if r.commandId in attempts then attempts[r.commandId] else [];
      var i := 0;
      while i < |rows| && !R.SameRow(rows[i], r)
        invariant 0 <= i <= |rows| && forall j :: 0 <= j < i ==> !R.SameRow(rows[j], r)
      {
        i := i + 1;
      }
      SaveRowAt(rows, r, i);
      attempts := attempts[r.commandId := if i == |rows| then rows + [r] else rows[i := r]];
    }
  }

  /** A record replaces the first one of its identity. */
  lemma {:induction false} SaveRowAt(rows: seq<E.ReadRecord>, r: E.ReadRecord, i: nat)
    requires i <= |rows| && (forall j :: 0 <= j < i ==> !R.SameRow(rows[j], r)) && (i < |rows| ==> R.SameRow(rows[i], r))
    ensures R.SaveRow(rows, r) == if i == |rows| then rows + [r] else rows[i := r]
  {
    if i > 0 {
      SaveRowAt(rows[1..], r, i - 1);
      assert rows == [rows[0]] + rows[1..];
    }
  }

  // ---------------------------------------------------------------- the service

  /** What the caller of a segment sees: `None` when it raised. */
  function ValueOf<T>(e: E.Eff<T>): Option<T> { match e case Ok(_, v) => Some(v) case Raised(_) => None }

  /** A row for whoever follows the state of actions, which nobody has claimed yet. */
  predicate IsNewRow(r: OutboxRepository.Row, event: Id, now: int) {
    && r.kind == OutboxRepository.ActionStateChanged && r.eventId == event && r.createdAt == now
    && r.state == OutboxRepository.RowState.Pending && r.owner == None && r.generation == 0
  }

  /** The written copy: its state, its resource when one was given, an attempt when it is SENT, and its end when it
      ends. */
  predicate Amended(a: ActionCommand, b: ActionCommand, state: ActionState, rid: Option<Id>, now: int) {
    && b.state == state && b.version == a.version + 1 && b.providerResourceId == (if rid.Some? then rid else a.providerResourceId)
    && b.attemptCount == a.attemptCount + (if state == Sent then 1 else 0)
    && b.lastAttemptAt == (if state == Sent then Some(now) else a.lastAttemptAt)
    && b.completedAt == (if state == Success || state == ActionState.Failed || state == RolledBack then Some(now) else a.completedAt)
    && b == a.(state := b.state, version := b.version, providerResourceId := b.providerResourceId, attemptCount := b.attemptCount,
               lastAttemptAt := b.lastAttemptAt, completedAt := b.completedAt)
  }

  lemma WrittenAmends(a: ActionCommand, state: ActionState, rid: Option<Id>, now: int)
    ensures Amended(a, E.Written(a, state, rid, now).(version := a.version + 1), state, rid, now)
  {}

  class DurableActionExecutionService {
    const actions: ActionRepository
    const incidents: IncidentRepository.IncidentRepository
    const ownership: OwnershipRepository
    const ledger: CostLedger
    const verification: VerificationRepository
    const recovery: RecoveryConsistency.RecoveryService
    const outbox: OutboxRepository.OutboxRepository
    const settings: E.Settings
    var journal: E.Journal  // what happened; no decision reads it

    constructor (actions: ActionRepository, incidents: IncidentRepository.IncidentRepository,
                 ownership: OwnershipRepository,
                 ledger: CostLedger, verification: VerificationRepository, recovery: RecoveryConsistency.RecoveryService,
                 outbox: OutboxRepository.OutboxRepository, settings: E.Settings)
      ensures this.actions == actions && this.incidents == incidents && this.ownership == ownership && this.ledger == ledger
      ensures this.verification == verification && this.recovery == recovery && this.outbox == outbox && this.settings == settings
      ensures journal == E.Journal({}, {}, {}, [])
    {
      this.actions, this.incidents, this.ownership, this.ledger := actions, incidents, ownership, ledger;
      this.verification, this.recovery, this.outbox, this.settings := verification, recovery, outbox, settings;
      journal := E.Journal({}, {}, {}, []);
    }

    function Repr(): set<object> { {this, actions, incidents, ownership, ledger, verification, recovery, outbox} }

    /** The repositories as one value. */
    function World(): E.World
      reads Repr()
    {
      E.World(actions.Store(), incidents.Store(), ownership.leases, ledger.entries, verification.checks, verification.attempts,
              verification.trust, recovery.items, outbox.rows, journal)
    }

    /** The repositories are filed by identity, and the recovery service repairs the same incidents. */
    ghost predicate Valid()
      reads Repr()
    {
      && recovery.incidents == incidents && outbox.Valid() && actions.Store().Filed()
      && incidents.items.Keys == incidents.log.Keys
      && forall id <- incidents.items :: incidents.items[id].incidentId == id
    }

    // -------------------------------------------------------------- primitives

    /** `_update_action`. */
    method UpdateAction(a: ActionCommand, state: ActionState, rid: Option<Id>, now: int)
      returns (r: Option<ActionCommand>)
      requires Valid()
      modifies actions
      ensures Valid()
      ensures World() == E.UpdateAction(old(World()), a, state, rid, now).world
              && r == ValueOf(E.UpdateAction(old(World()), a, state, rid, now))
      ensures r.Some? ==> Amended(a, r.value, state, rid, now)
    {
      var updated := Copy(a, state, rid, now);
      r := actions.Update(updated, a.version);
      WrittenAmends(a, state, rid, now);
    }

    static method Copy(a: ActionCommand, state: ActionState, rid: Option<Id>, now: int) returns (updated: ActionCommand)
      ensures updated == E.Written(a, state, rid, now)
    {
      updated := a.(state := state);
      if rid.Some? { updated := updated.(providerResourceId := rid); }
      if state.Sent? { updated := updated.(attemptCount := updated.attemptCount + 1, lastAttemptAt := Some(now)); }
      if TerminalAction(state) { updated := updated.(completedAt := Some(now)); }
    }

    /** `_transition` of a known incident. */
    method Transition(id: Id, to: IncidentState, now: int)
      requires Valid() && id in incidents.items && IncidentRepository.CanMove(incidents.items[id].state, to)
      modifies incidents
      ensures Valid() && World() == old(World()).(incidents := old(incidents.Store().Transition(id, to, now)).value)
    {
      var moved := incidents.MoveTo(id, to, now);
    }

    /** `if incident and its state is `from`: _transition(.., to, ..)`. */
    method MoveIncidentFrom(id: Id, from: IncidentState, to: IncidentState, now: int)
      requires Valid() && IncidentRepository.CanMove(from, to)
      modifies incidents
      ensures Valid() && World() == E.MoveIncidentFrom(old(World()), id, from, to, now)
    {
      if id in incidents.items && incidents.items[id].state == from {
        Transition(id, to, now);
      }
    }

    /** `incidents.update` with the version that was read. */
    method UpdateIncident(i: IncidentRepository.Incident)
      requires Valid() && i.incidentId in incidents.items
      requires incidents.items[i.incidentId].version == i.version && incidents.items[i.incidentId].state == i.state
      modifies incidents
      ensures Valid()
      ensures World() == old(World()).(incidents :=
                old(incidents.Store()).(items := old(incidents.items)[i.incidentId := i.(version := i.version + 1)]))
    {
      var r := incidents.Update(i, i.version);
    }

    /** `_update_incident_fields`. */
    method WriteIncident(id: Id, verification: Option<VerificationState>,
                         outcome: Option<IncidentRepository.IncidentOutcome>,
                         recovery: Option<RecoveryState>, now: int) returns (ok: bool)
      requires Valid()
      modifies incidents
      ensures Valid()
      ensures var e := E.WriteIncident(old(World()), id, verification, outcome, recovery, now); World() == e.world && ok == e.Ok?
    {
      if id !in incidents.items { return false; }
      ghost var w := World();
      var updated := Amend(incidents.items[id], verification, outcome, recovery, now);
      UpdateIncident(updated);
      O.FieldsAreWritten(w, id, verification, outcome, recovery, now, updated);
      return true;
    }

    /** The copy with the fields that were given. */
    static method Amend(i: IncidentRepository.Incident, verification: Option<VerificationState>,
                        outcome: Option<IncidentRepository.IncidentOutcome>, recovery: Option<RecoveryState>, now: int)
      returns (updated: IncidentRepository.Incident)
      ensures updated == E.WithFields(i, verification, outcome, recovery, now)
      ensures updated.incidentId == i.incidentId && updated.version == i.version && updated.state == i.state
    {
      updated := i;
      if verification.Some? { updated := updated.(verification := verification.value); }
      if outcome.Some? { updated := updated.(outcome := outcome.value); }
      if recovery.Some? { updated := updated.(recovery := recovery.value); }
      updated := updated.(updatedAt := now);
    }

    /** `_append_outbox`. */
    method AppendOutbox(a: ActionCommand, status: OutboxRepository.ExecutionStatus, now: int) returns (ok: bool)
      requires Valid()
      modifies outbox
      ensures Valid()
      ensures var e := E.AppendOutbox(old(World()), a, status, now); World() == e.world && ok == e.Ok?
      ensures ok <==> a.incidentId in incidents.items && incidents.items[a.incidentId].triggerEventId != []
      ensures var id := OutboxRepository.OutExecution(a.commandId, a.version, status);
              ok && id !in old(outbox.rows) ==>
                id in outbox.rows && IsNewRow(outbox.rows[id], incidents.items[a.incidentId].triggerEventId, now)
    {
      if a.incidentId !in incidents.items { return false; }
      var event := incidents.items[a.incidentId].triggerEventId;
      if |event| == 0 { return false; }
      outbox.Append(OutboxRepository.OutExecution(a.commandId, a.version, status),
                    OutboxRepository.NewRow(event, OutboxRepository.ActionStateChanged, now));
      return true;
    }

    /** `_save_recovery`. */
    method SaveRecovery(incident: Id, state: RecoveryState, now: int) returns (ok: bool)
      requires Valid()
      modifies recovery`items, incidents`items
      ensures Valid()
      ensures var e := E.SaveRecovery(old(World()), incident, state, now); World() == e.world && ok == e.Ok?
    {
      var stored := recovery.SaveAndRepair(incident, state, 1, now);
      return stored.Some?;
    }

    /** `_ensure_ownership`. */
    method EnsureOwnership(a: ActionCommand, now: int) returns (owned: bool)
      requires Valid()
      modifies ownership
      ensures Valid()
      ensures var e := E.EnsureOwnership(old(World()), a, now); owned == e.Some? && World() == if owned then e.value else old(World())
      ensures var before := old(ownership.leases);
              && (owned <==> !(Held(before, a.resourceKey, now) && before[a.resourceKey].owner != a.incidentId))
              && ownership.leases == if Held(before, a.resourceKey, now) then before
                                     else Reclaimed(before, a.resourceKey, a.incidentId, now + 300)
    {
      if a.resourceKey in ownership.leases && ownership.leases[a.resourceKey].owned {
        var current := ownership.leases[a.resourceKey];
        if current.owner != a.incidentId && E.Unexpired(current, now) { return false; }
        if current.owner == a.incidentId && E.Unexpired(current, now) { return true; }
      }
      owned := ownership.Acquire(a.resourceKey, a.incidentId, now);
    }

    /** `_cost_recorded`. */
    method CostRecorded(a: ActionCommand) returns (recorded: bool)
      ensures recorded <==> E.CostRecorded(ledger.entries, a)
    {
      for i := 0 to |ledger.entries|
        invariant forall j :: 0 <= j < i ==> !(ledger.entries[j].commandId == a.commandId && ledger.entries[j].incidentId == a.incidentId)
      {
        if ledger.entries[i].commandId == a.commandId && ledger.entries[i].incidentId == a.incidentId { return true; }
      }
      return false;
    }

    /** `_record_cost_once`. */
    method RecordCostOnce(a: ActionCommand) returns (ok: bool)
      requires Valid()
      modifies ledger
      ensures Valid()
      ensures var e := E.RecordCost(old(World()), a); World() == e.world && ok == e.Ok?
      ensures ChargedOnce(old(ledger.entries), ledger.entries, a, ok)
    {
      C.AffordableExactly(ledger.entries, a, settings);
      if E.Cost(a) == 0 { return true; }
      var recorded := CostRecorded(a);
      if recorded { return true; }
      ok := ledger.Append(E.Charge(a.commandId, a.incidentId, E.Cost(a)));
    }

    // -------------------------------------------------------------- the way to the provider

    /** A write of the command, and the row that reports it. */
    method Settle(a: ActionCommand, state: ActionState, status: OutboxRepository.ExecutionStatus, now: int)
      returns (next: Option<E.Next>)
      requires Valid()
      modifies actions, outbox
      ensures Valid()
      ensures var e := E.Settle(old(World()), a, state, status, now); World() == e.world && next == ValueOf(e)
    {
      var written := UpdateAction(a, state, None, now);
      if written.None? { return None; }
      var ok := AppendOutbox(written.value, status, now);
      return if ok then Some(E.Returned) else None;
    }

    /** The writes of a block. */
    method WriteBlock(a: ActionCommand, now: int) returns (next: Option<E.Next>)
      requires Valid()
      modifies actions, incidents, outbox
      ensures Valid()
      ensures var e := E.PersistBlock(old(World()), a, now); World() == e.world && next == ValueOf(e)
    {
      var current := if a.commandId in actions.byId then actions.byId[a.commandId] else a;
      if current.state.Ready? {
        var failed := UpdateAction(current, ActionState.Failed, None, now);
        if failed.None? { return None; }
        current := failed.value;
      }
      MoveIncidentFrom(a.incidentId, Approved, Blocked, now);
      var ok := AppendOutbox(current, OutboxRepository.BlockedRow, now);
      return if ok then Some(E.Returned) else None;
    }

    /** `_persist_block`. */
    method PersistBlock(a: ActionCommand, now: int) returns (next: Option<E.Next>)
      requires Valid()
      modifies actions, incidents, outbox
      ensures Valid()
      ensures var e := E.PersistBlock(old(World()), a, now); World() == e.world && next == ValueOf(e)
      ensures O.Blocks(old(World()), World(), a, next.Some?, now)
    {
      O.PersistBlockBlocks(World(), a, now);
      next := WriteBlock(a, now);
    }

    /** The charge, then `adapter.execute`. */
    method ChargeAndCall(sent: ActionCommand, now: int) returns (next: Option<E.Next>)
      requires Valid()
      modifies this`journal, actions, outbox, ledger
      ensures Valid()
      ensures var e := E.ChargeAndCall(old(World()), sent, now); World() == e.world && next == ValueOf(e)
    {
      var ok := RecordCostOnce(sent);
      if !ok {
        next := Settle(sent, ActionState.Failed, OutboxRepository.BlockedRow, now);
        return;
      }
      journal := journal.(calls := journal.calls + [E.ExecuteCall(sent.commandId, E.Cost(sent))]);
      return Some(E.AwaitExecute(sent));
    }

    /** From the SENT commit to the provider call. */
    method CallProvider(sent: ActionCommand, t: E.Instants) returns (next: Option<E.Next>)
      requires Valid()
      modifies this`journal, actions, outbox, ledger
      ensures Valid()
      ensures var e := E.CallProvider(old(World()), sent, settings, t); World() == e.world && next == ValueOf(e)
    {
      if !E.OwnershipCurrent(World(), sent, t.owned) {
        next := Settle(sent, OutcomeUnknown, OutboxRepository.OutcomeUnknownRow, t.owned);
      } else if sent.commandId !in actions.byId {
        next := Some(E.Returned);
      } else {
        var latest := actions.byId[sent.commandId];
        if latest.state.Sent? && latest.version == sent.version && sent.incidentId in incidents.items
           && latest.incidentId in incidents.items && E.Eligible(World(), latest, settings, t.final) {
          next := ChargeAndCall(sent, t.final);
        } else if latest.state.Sent? {
          next := Settle(latest, ActionState.Failed, OutboxRepository.BlockedRow, t.final);
        } else {
          next := Some(E.Returned);
        }
      }
    }

    /** With the lease held: the second look, then READY -> SENT. */
    method TakeUp(a: ActionCommand, t: E.Instants, fail: Option<E.Failpoint>) returns (next: Option<E.Next>)
      requires Valid() && a.incidentId in incidents.items
      modifies this`journal, actions, incidents, outbox, ledger
      ensures Valid()
      ensures var e := E.TakeUp(old(World()), a, settings, t, fail); World() == e.world && next == ValueOf(e)
    {
      if !a.state.Ready? {
        next := Some(E.Returned);
      } else if !E.Eligible(World(), a, settings, t.rechecked) {
        next := PersistBlock(a, t.rechecked);
      } else {
        MoveIncidentFrom(a.incidentId, Approved, Mitigating, t.rechecked);
        var sent := UpdateAction(a, ActionState.Sent, None, t.rechecked);
        if sent.None? || fail == Some(E.AfterSentBeforeProvider) { return None; }
        next := CallProvider(sent.value, t);
      }
    }

    /** The lease on the resource. */
    method Own(a: ActionCommand, t: E.Instants, fail: Option<E.Failpoint>) returns (next: Option<E.Next>)
      requires Valid() && a.incidentId in incidents.items
      modifies this`journal, actions, incidents, ownership, outbox, ledger
      ensures Valid()
      ensures var e := E.Own(old(World()), a, settings, t, fail); World() == e.world && next == ValueOf(e)
    {
      if fail == Some(E.BeforeOwnership) { return None; }
      var owned := EnsureOwnership(a, t.leased);
      if !owned {
        next := PersistBlock(a, t.leased);
      } else if fail == Some(E.AfterOwnershipBeforeSent) {
        next := None;
      } else {
        next := TakeUp(a, t, fail);
      }
    }

    /** `execute_ready_action` for a READY command. */
    method StartReady(a: ActionCommand, cap: E.Capability, t: E.Instants, fail: Option<E.Failpoint>)
      returns (next: Option<E.Next>)
      requires Valid() && a.commandId in actions.byId && actions.byId[a.commandId] == a
      modifies this`journal, actions, incidents, ownership, outbox, ledger
      ensures Valid()
      ensures var e := E.StartReady(old(World()), a, settings, cap, t, fail); World() == e.world && next == ValueOf(e)
    {
      if a.incidentId !in incidents.items || !E.Eligible(World(), a, settings, t.checked) || !E.ModeAllows(settings) || !cap.mutation {
        next := PersistBlock(a, t.checked);
      } else {
        next := Own(a, t, fail);
      }
    }

    // -------------------------------------------------------------- answers

    /** The start of `_verify_known`. */
    method BeginVerify(a: ActionCommand, now: int) returns (next: Option<E.Next>)
      requires Valid()
      modifies incidents
      ensures Valid()
      ensures var e := E.BeginVerify(old(World()), a, now); World() == e.world && next == ValueOf(e)
    {
      MoveIncidentFrom(a.incidentId, Mitigating, Verifying, now);
      next := Some(E.AwaitVerify(a));
    }

    /** The provider refused: the command fails, with a record that shows no improvement. */
    method TakeRefusal(sent: ActionCommand, now: int) returns (next: Option<E.Next>)
      requires Valid()
      modifies actions, verification, outbox
      ensures Valid()
      ensures var e := E.AfterExecute(old(World()), sent, E.Rejected, now, None); World() == e.world && next == ValueOf(e)
    {
      var failed := UpdateAction(sent, ActionState.Failed, None, now);
      if failed.None? { return None; }
      verification.SaveCheck(E.Verify(sent.commandId), E.Check(sent.incidentId, VerificationState.Failed, false, now));
      var ok := AppendOutbox(failed.value, OutboxRepository.ProviderFailedRow, now);
      next := if ok then Some(E.Returned) else None;
    }

    /** The command is acknowledged, and its verification begins. */
    method TakeAcceptance(a: ActionCommand, resource: Option<Id>, now: int, dies: bool) returns (next: Option<E.Next>)
      requires Valid()
      modifies actions, incidents
      ensures Valid()
      ensures var u := E.UpdateAction(old(World()), a, Acknowledged, resource, now);
              if u.Raised? || dies then World() == u.world && next == None
              else World() == E.BeginVerify(u.world, u.value, now).world && next == Some(E.AwaitVerify(u.value))
    {
      var accepted := UpdateAction(a, Acknowledged, resource, now);
      if accepted.None? || dies { return None; }
      next := BeginVerify(accepted.value, now);
    }

    /** After `adapter.execute` answered or raised. */
    method AfterExecute(sent: ActionCommand, answer: E.ProviderAnswer, now: int, fail: Option<E.Failpoint>)
      returns (next: Option<E.Next>)
      requires Valid()
      modifies actions, incidents, verification, outbox
      ensures Valid()
      ensures var e := E.AfterExecute(old(World()), sent, answer, now, fail); World() == e.world && next == ValueOf(e)
      ensures O.Answers(old(World()), World(), sent, answer, next, fail == Some(E.AfterProviderBeforeResult))
    {
      ghost var w := World();
      next := WriteAnswer(sent, answer, now, fail);
      O.AfterExecuteAnswers(w, sent, answer, now, fail, E.AfterExecute(w, sent, answer, now, fail),
                            fail == Some(E.AfterProviderBeforeResult));
    }

    /** The writes that the answer of `adapter.execute` asks for. */
    method WriteAnswer(sent: ActionCommand, answer: E.ProviderAnswer, now: int, fail: Option<E.Failpoint>)
      returns (next: Option<E.Next>)
      requires Valid()
      modifies actions, incidents, verification, outbox
      ensures Valid()
      ensures var e := E.AfterExecute(old(World()), sent, answer, now, fail); World() == e.world && next == ValueOf(e)
    {
      if answer.Ambiguous? || fail == Some(E.AfterProviderBeforeResult) {
        next := Settle(sent, OutcomeUnknown, OutboxRepository.OutcomeUnknownRow, now);
      } else if answer.Rejected? {
        next := TakeRefusal(sent, now);
      } else {
        next := TakeAcceptance(sent, answer.resource, now, fail == Some(E.AfterResultBeforeVerification));
      }
    }

    /** The start of the executor's `reconcile_action`. */
    method BeginReconcile(a: ActionCommand, now: int) returns (next: Option<E.Next>)
      requires Valid()
      modifies actions
      ensures Valid()
      ensures var e := E.BeginReconcile(old(World()), a, now); World() == e.world && next == ValueOf(e)
    {
      var current := a;
      if a.state.Sent? {
        var unknown := UpdateAction(a, OutcomeUnknown, None, now);
        if unknown.None? { return None; }
        current := unknown.value;
      }
      next := Some(if current.state.OutcomeUnknown? || current.state.ReconciliationRequired? then E.AwaitReconcile(current) else E.Returned);
    }

    /** After the executor's `adapter.reconcile` answered. */
    method AfterReconcile(a: ActionCommand, answer: E.ReconcileAnswer, now: int) returns (next: Option<E.Next>)
      requires Valid()
      modifies actions, incidents, outbox
      ensures Valid()
      ensures var e := E.AfterReconcile(old(World()), a, answer, now); World() == e.world && next == ValueOf(e)
      ensures O.Reconciles(old(World()), World(), a, answer, next)
    {
      ghost var w := World();
      next := WriteReading(a, answer, now);
      O.AfterReconcileReconciles(w, a, answer, now, E.AfterReconcile(w, a, answer, now));
    }

    /** The writes that a safe read asks for. */
    method WriteReading(a: ActionCommand, answer: E.ReconcileAnswer, now: int) returns (next: Option<E.Next>)
      requires Valid()
      modifies actions, incidents, outbox
      ensures Valid()
      ensures var e := E.AfterReconcile(old(World()), a, answer, now); World() == e.world && next == ValueOf(e)
    {
      match answer
      case Present(resource) =>
        next := TakeAcceptance(a, resource.Or(a.providerResourceId), now, false);
      case Absent =>
        next := Settle(a, ActionState.Failed, OutboxRepository.ProviderFailedRow, now);
      case Unknown =>
        if !a.state.ReconciliationRequired? {
          next := Settle(a, ReconciliationRequired, OutboxRepository.OutcomeUnknownRow, now);
        } else {
          var ok := AppendOutbox(a, OutboxRepository.OutcomeUnknownRow, now);
          next := if ok then Some(E.Returned) else None;
        }
    }

    /** RESOLVED, with the fields that record why. */
    method Resolve(id: Id, from: IncidentState, verification: Option<VerificationState>,
                   outcome: IncidentRepository.IncidentOutcome,
                   recovery: Option<RecoveryState>, now: int)
      requires Valid() && IncidentRepository.CanMove(from, Resolved)
      modifies incidents
      ensures Valid() && World() == E.Resolve(old(World()), id, from, verification, outcome, recovery, now)
    {
      if id in incidents.items && incidents.items[id].state == from {
        ghost var w := World();
        MoveIncidentFrom(id, from, Resolved, now);
        O.ResolveIs(w, id, from, verification, outcome, recovery, now, World());
        var ok := WriteIncident(id, verification, Some(outcome), recovery, now);
      }
    }

    /** `_maybe_resolve`. */
    method MaybeResolve(incident: Id, plan: int, now: int)
      requires Valid()
      modifies incidents, ownership
      ensures Valid() && World() == E.MaybeResolve(old(World()), incident, plan, now)
      ensures O.Gates(old(World()), World(), incident, plan)
    {
      O.MaybeResolveGates(World(), incident, plan, now);
      if !E.AllPlanActionsSucceeded(World(), incident, plan) || !E.SomeImproved(World(), incident) { return; }
      Resolve(incident, Verifying, Some(Improved), IncidentRepository.IncidentOutcome.VerifiedImproved, None, now);
      ownership.ReleaseAll(incident);
    }

    /** Saves a NETWORK_ACTION record. */
    method SaveCheck(id: E.CheckId, incident: Id, v: E.VerifyAnswer, state: VerificationState, now: int)
      requires Valid()
      modifies this`journal, verification
      ensures Valid() && World() == E.SaveCheck(old(World()), id, incident, v, state, now)
    {
      verification.SaveCheck(id, E.Check(incident, state, v.VerifiedImproved?, now));
      if state.Improved? { journal := journal.(improved := journal.improved + {id.commandId}); }
    }

    /** After `adapter.verify` answered. */
    method AfterVerify(a: ActionCommand, v: E.VerifyAnswer, cap: E.Capability, freshId: Id, now: int,
                       fail: Option<E.Failpoint>)
      returns (next: Option<E.Next>)
      requires Valid()
      modifies this`journal, actions, incidents, ownership, verification, recovery`items, outbox
      ensures Valid()
      ensures var e := E.AfterVerify(old(World()), a, v, settings, cap, freshId, now, fail); World() == e.world && next == ValueOf(e)
      ensures freshId !in old(actions.byId) ==>
                O.Verifies(old(World()), World(), a, v, settings, cap, next, now, fail)
    {
      ghost var w := World();
      next := WriteVerdict(a, v, cap, freshId, now, fail);
      if freshId !in w.actions.byId {
        O.AfterVerifyVerifies(w, a, v, settings, cap, freshId, now, fail, E.AfterVerify(w, a, v, settings, cap, freshId, now, fail));
      }
    }

    /** The record, and what follows from it. */
    method WriteVerdict(a: ActionCommand, v: E.VerifyAnswer, cap: E.Capability, freshId: Id, now: int,
                        fail: Option<E.Failpoint>)
      returns (next: Option<E.Next>)
      requires Valid()
      modifies this`journal, actions, incidents, ownership, verification, recovery`items, outbox
      ensures Valid()
      ensures var e := E.AfterVerify(old(World()), a, v, settings, cap, freshId, now, fail); World() == e.world && next == ValueOf(e)
    {
      var state := E.VerificationOf(v);
      var ok := RecordVerification(a, v, state, now);
      if !ok || fail == Some(E.AfterVerificationBeforePublication) { return None; }
      next := Publish(a, state, cap, freshId, now, fail);
    }

    /** The record of a verification, and the incident's field for it. */
    method RecordVerification(a: ActionCommand, v: E.VerifyAnswer, state: VerificationState, now: int)
      returns (ok: bool)
      requires Valid()
      modifies this`journal, incidents, verification
      ensures Valid()
      ensures var e := E.WriteIncident(E.SaveCheck(old(World()), E.Verify(a.commandId), a.incidentId, v, state, now),
                                       a.incidentId, Some(state), None, None, now);
              World() == e.world && ok == e.Ok?
    {
      SaveCheck(E.Verify(a.commandId), a.incidentId, v, state, now);
      ok := WriteIncident(a.incidentId, Some(state), None, None, now);
    }

    /** The end of `_verify_known`. */
    method Publish(a: ActionCommand, state: VerificationState, cap: E.Capability, freshId: Id, now: int,
                   fail: Option<E.Failpoint>)
      returns (next: Option<E.Next>)
      requires Valid()
      modifies this`journal, actions, incidents, ownership, recovery`items, outbox
      ensures Valid()
      ensures var e := E.Publish(old(World()), a, state, settings, cap, freshId, now, fail); World() == e.world && next == ValueOf(e)
    {
      if state.Improved? {
        var success := UpdateAction(a, Success, None, now);
        if success.None? { return None; }
        MaybeResolve(a.incidentId, a.planVersion, now);
        var ok := AppendOutbox(success.value, OutboxRepository.VerifiedRow, now);
        next := if ok then Some(E.Returned) else None;
      } else if state.Unchanged? || state.Degraded? {
        var doomed := UpdateAction(a, RollbackRequired, None, now);
        if doomed.None? { return None; }
        next := BeginRollback(doomed.value, cap, freshId, now, fail);
      } else {
        next := Settle(a, ReconciliationRequired, OutboxRepository.VerificationUnavailableRow, now);
      }
    }

    // -------------------------------------------------------------- rollback

    /** The start of `_rollback`. */
    method BeginRollback(a: ActionCommand, cap: E.Capability, freshId: Id, now: int, fail: Option<E.Failpoint>)
      returns (next: Option<E.Next>)
      requires Valid()
      modifies this`journal, actions, incidents, recovery`items, outbox
      ensures Valid()
      ensures var e := E.BeginRollback(old(World()), a, settings, cap, freshId, now, fail); World() == e.world && next == ValueOf(e)
      ensures freshId !in old(actions.byId) ==> O.Undertakes(old(World()), World(), a, settings, cap, next, now, fail)
    {
      if freshId !in actions.byId {
        O.BeginRollbackUndertakes(World(), a, settings, cap, freshId, now, fail,
                                  E.BeginRollback(World(), a, settings, cap, freshId, now, fail));
      }
      if !E.ModeAllows(settings) {
        var ok := AppendOutbox(a, OutboxRepository.RecoveryRequiredRow, now);
        next := if ok then Some(E.Returned) else None;
      } else if !cap.rollback || a.providerResourceId.None? {
        next := RefuseRollback(a, now);
      } else if !IsPlanType(a.commandType) {
        next := None;
      } else {
        next := CreateRollback(a, freshId, now, fail);
      }
    }

    /** The rollback command is found or created, and claimed. */
    method CreateRollback(a: ActionCommand, freshId: Id, now: int, fail: Option<E.Failpoint>)
      returns (next: Option<E.Next>)
      requires Valid() && IsPlanType(a.commandType)
      modifies this`journal, actions, incidents, recovery`items, outbox
      ensures Valid()
      ensures var (store, r) := old(World()).actions.CreateOrGet(E.RollbackCommand(a, freshId, now));
              var e := E.Undertake(old(World()).(actions := store), a, r, now, fail); World() == e.world && next == ValueOf(e)
    {
      var r, created := actions.CreateOrGet(E.RollbackCommand(a, freshId, now));
      next := Undertake(a, r, now, fail);
    }

    /** A rollback that cannot be made is recorded as failed, and an incident under verification is escalated. */
    method RefuseRollback(a: ActionCommand, now: int) returns (next: Option<E.Next>)
      requires Valid()
      modifies incidents, recovery`items, outbox
      ensures Valid()
      ensures var e := E.RefuseRollback(old(World()), a, now); World() == e.world && next == ValueOf(e)
    {
      var ok := SaveRecovery(a.incidentId, RecoveryState.Failed, now);
      if !ok { return None; }
      MoveIncidentFrom(a.incidentId, Verifying, Escalated, now);
      ok := AppendOutbox(a, OutboxRepository.RecoveryRequiredRow, now);
      next := if ok then Some(E.Returned) else None;
    }

    /** The claim of the stored rollback command `r`. */
    method Undertake(a: ActionCommand, r: ActionCommand, now: int, fail: Option<E.Failpoint>)
      returns (next: Option<E.Next>)
      requires Valid()
      modifies this`journal, actions, incidents, recovery`items, outbox
      ensures Valid()
      ensures var e := E.Undertake(old(World()), a, r, now, fail); World() == e.world && next == ValueOf(e)
    {
      if r.state.Sent? {
        var unknown := UpdateAction(r, OutcomeUnknown, None, now);
        next := if unknown.Some? then Some(E.Returned) else None;
      } else if !r.state.Ready? {
        next := Some(E.Returned);
      } else {
        var sent := UpdateAction(r, ActionState.Sent, None, now);
        if sent.None? { return Some(E.Returned); }
        next := ClaimedRollback(a, sent.value, now, fail);
      }
    }

    /** From the SENT commit of the rollback command to the provider call. */
    method ClaimedRollback(a: ActionCommand, sent: ActionCommand, now: int, fail: Option<E.Failpoint>)
      returns (next: Option<E.Next>)
      requires Valid()
      modifies this`journal, actions, incidents, recovery`items, outbox
      ensures Valid()
      ensures var e := E.ClaimedRollback(old(World()), a, sent, now, fail); World() == e.world && next == ValueOf(e)
    {
      var ok := SaveRecovery(a.incidentId, Releasing, now);
      if !ok || fail == Some(E.AfterRollbackSentBeforeProvider) { return None; }
      if !E.OwnershipCurrent(World(), a, now) {
        next := Settle(sent, OutcomeUnknown, OutboxRepository.OutcomeUnknownRow, now);
      } else {
        journal := journal.(calls := journal.calls + [E.RollbackCall(a.commandId)]);
        next := Some(E.AwaitRollback(a, sent));
      }
    }

    /** Nobody knows what became of the rollback: the incident is recovering, its recovery partial. */
    method LeavePartial(a: ActionCommand, sent: ActionCommand, state: ActionState,
                        status: OutboxRepository.ExecutionStatus, now: int)
      returns (next: Option<E.Next>)
      requires Valid()
      modifies actions, incidents, recovery`items, outbox
      ensures Valid()
      ensures var u := E.UpdateAction(old(World()), sent, state, None, now);
              if u.Raised? then World() == u.world && next == None
              else
                var r := E.SaveRecovery(E.MoveIncidentFrom(u.world, a.incidentId, Verifying, Recovering, now),
                                        a.incidentId, Partial, now);
                if r.Raised? then World() == r.world && next == None
                else var o := E.AppendOutbox(r.world, u.value, status, now); World() == o.world && next == if o.Ok? then Some(E.Returned) else None
    {
      var written := UpdateAction(sent, state, None, now);
      if written.None? { return None; }
      MoveIncidentFrom(a.incidentId, Verifying, Recovering, now);
      var ok := SaveRecovery(a.incidentId, Partial, now);
      if !ok { return None; }
      ok := AppendOutbox(written.value, status, now);
      next := if ok then Some(E.Returned) else None;
    }

    /** The writes that the answer of `adapter.rollback` asks for. */
    method WriteRollbackAnswer(a: ActionCommand, sent: ActionCommand, answer: E.ProviderAnswer, explicit: bool,
                               now: int, fail: Option<E.Failpoint>)
      returns (next: Option<E.Next>)
      requires Valid()
      modifies actions, incidents, recovery`items, outbox
      ensures Valid()
      ensures var e := E.AfterRollback(old(World()), a, sent, answer, explicit, now, fail); World() == e.world && next == ValueOf(e)
    {
      if answer.Ambiguous? || fail == Some(E.AfterRollbackProviderBeforeResult) {
        next := LeavePartial(a, sent, OutcomeUnknown, OutboxRepository.OutcomeUnknownRow, now);
      } else if answer.Rejected? {
        var failed := UpdateAction(sent, ActionState.Failed, None, now);
        if failed.None? { return None; }
        var ok := true;
        if explicit { ok := SaveRecovery(a.incidentId, RecoveryState.Failed, now); }
        next := if ok then Some(E.Returned) else None;
      } else {
        var accepted := UpdateAction(sent, Acknowledged, None, now);
        if accepted.None? { return None; }
        next := Some(E.AwaitVerifyRollback(a, accepted.value));
      }
    }

    /** After `adapter.rollback` answered or raised. */
    method AfterRollback(a: ActionCommand, sent: ActionCommand, answer: E.ProviderAnswer, explicit: bool, now: int,
                         fail: Option<E.Failpoint>)
      returns (next: Option<E.Next>)
      requires Valid()
      modifies actions, incidents, recovery`items, outbox
      ensures Valid()
      ensures var e := E.AfterRollback(old(World()), a, sent, answer, explicit, now, fail); World() == e.world && next == ValueOf(e)
      ensures O.Releases(old(World()), World(), a, sent, answer, explicit, next, fail == Some(E.AfterRollbackProviderBeforeResult))
    {
      O.AfterRollbackReleases(World(), a, sent, answer, explicit, now, fail,
                              E.AfterRollback(World(), a, sent, answer, explicit, now, fail),
                              fail == Some(E.AfterRollbackProviderBeforeResult));
      next := WriteRollbackAnswer(a, sent, answer, explicit, now, fail);
    }

    /** The rollback could not be verified. */
    method Unverified(a: ActionCommand, accepted: ActionCommand, now: int) returns (next: Option<E.Next>)
      requires Valid()
      modifies actions, incidents, recovery`items, outbox
      ensures Valid()
      ensures var e := E.AfterVerifyRollback(old(World()), a, accepted, false, now); World() == e.world && next == ValueOf(e)
    {
      MoveIncidentFrom(a.incidentId, Verifying, Recovering, now);
      var pending := UpdateAction(accepted, ReconciliationRequired, None, now);
      if pending.None? { return None; }
      var ok := SaveRecovery(a.incidentId, Partial, now);
      if !ok { return None; }
      ok := AppendOutbox(pending.value, OutboxRepository.RecoveryRequiredRow, now);
      next := if ok then Some(E.Returned) else None;
    }

    /** After `adapter.verify_rollback` answered. */
    method AfterVerifyRollback(a: ActionCommand, accepted: ActionCommand, verified: bool, now: int)
      returns (next: Option<E.Next>)
      requires Valid()
      modifies this`journal, actions, incidents, recovery`items, outbox
      ensures Valid()
      ensures var e := E.AfterVerifyRollback(old(World()), a, accepted, verified, now); World() == e.world && next == ValueOf(e)
      ensures O.Undoes(old(World()), World(), a, accepted, verified, next.Some?)
    {
      O.AfterVerifyRollbackUndoes(World(), a, accepted, verified, now, E.AfterVerifyRollback(World(), a, accepted, verified, now));
      if !verified {
        next := Unverified(a, accepted, now);
      } else {
        MoveIncidentFrom(a.incidentId, Verifying, Recovering, now);
        journal := journal.(undone := journal.undone + {a.commandId, accepted.commandId}, recovered := journal.recovered + {a.incidentId});
        next := FinishRollback(a, accepted, now);
      }
    }

    /** The writes after a verified rollback. */
    method FinishRollback(a: ActionCommand, accepted: ActionCommand, now: int) returns (next: Option<E.Next>)
      requires Valid()
      modifies actions, incidents, recovery`items, outbox
      ensures Valid()
      ensures var e := E.FinishRollback(old(World()), a, accepted, now); World() == e.world && next == ValueOf(e)
    {
      var completed := UpdateAction(accepted, RolledBack, None, now);
      if completed.None? { return None; }
      var original := if a.commandId in actions.byId then actions.byId[a.commandId] else a;
      if original.state.RollbackRequired? {
        var undone := UpdateAction(original, RolledBack, None, now);
        if undone.None? { return None; }
      }
      var ok := SaveRecovery(a.incidentId, RecoveryState.Complete, now);
      if !ok { return None; }
      Resolve(a.incidentId, Recovering, None, IncidentRepository.RolledBackSafely, Some(RecoveryState.Complete), now);
      ok := AppendOutbox(completed.value, OutboxRepository.RolledBackRow, now);
      next := if ok then Some(E.Returned) else None;
    }

    // -------------------------------------------------------------- the handler

    /** What the state of the command asks for. */
    method Dispatch(id: Id, cap: E.Capability, freshId: Id, t: E.Instants, fail: Option<E.Failpoint>)
      returns (next: Option<E.Next>)
      requires Valid()
      modifies this`journal, actions, incidents, ownership, ledger, recovery`items, outbox
      ensures Valid()
      ensures var e := E.Start(old(World()), id, settings, cap, freshId, t, fail); World() == e.world && next == ValueOf(e)
    {
      if id !in actions.byId { return None; }
      var a := actions.byId[id];
      match a.state {
        case OutcomeUnknown => next := BeginReconcile(a, t.checked);
        case ReconciliationRequired => next := BeginReconcile(a, t.checked);
        case Acknowledged => next := BeginVerify(a, t.checked);
        case RollbackRequired => next := BeginRollback(a, cap, freshId, t.checked, fail);
        case Ready => next := StartReady(a, cap, t, fail);
        case _ => next := Some(E.Returned);
      }
    }

    /** `execute_ready_action`, up to its first await: it calls the provider with full authority and at most one charge,
        or charges, calls and resolves nothing. */
    method ExecuteReadyAction(id: Id, cap: E.Capability, freshId: Id, t: E.Instants, fail: Option<E.Failpoint>)
      returns (next: Option<E.Next>)
      requires Valid()
      modifies this`journal, actions, incidents, ownership, ledger, recovery`items, outbox
      ensures Valid()
      ensures var e := E.Start(old(World()), id, settings, cap, freshId, t, fail); World() == e.world && next == ValueOf(e)
      ensures freshId !in old(actions.byId) ==>
                if next.Some? && next.value.AwaitExecute? then S.Calls(old(World()), World(), id, settings, t) else S.Keeps(old(World()), World())
      ensures freshId !in old(actions.byId) ==> D.Dispatches(old(World()), World(), id, settings, cap, t, fail, next)
    {
      ghost var w := World();
      next := Dispatch(id, cap, freshId, t, fail);
      if freshId !in w.actions.byId {
        S.StartCalls(w, id, settings, cap, freshId, t, fail);
        D.StartDispatches(w, id, settings, cap, freshId, t, fail, E.Start(w, id, settings, cap, freshId, t, fail));
      }
    }
  }
}
