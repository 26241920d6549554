/** Four runs after which a restart is refused, for any identities, settings that allow mutations, and instant:
    a rollback that strands its lease, a block that strands a sibling command, a decision that was delivered late and
    strands its own command, and a BLOCK decision that strands the command of an interrupted authorisation. */
module RestartRefusals {
  import opened Options
  import opened DurableCore
  import opened IncidentRepository
  import opened RecoveryConsistency
  import opened Execution
  import opened Decisions
  import Runs = ExecutionRuns
  import Lifecycle = PlatformLifecycle

  /** The identities of a run. */
  datatype Names = Names(incident: Id, correlation: Id, entity: Id, trigger: Id, command: Id, second: Id, rollback: Id,
                         resource: Id, other: Id, provider: Id)
  {
    predicate Valid() {
      && incident != [] && correlation != [] && trigger != [] && resource != [] && resource != other
      && command != second && command != rollback && second != rollback
    }
  }

  predicate Permissive(s: Settings) { ModeAllows(s) && 0 <= s.maxDevices }

  // ---------------------------------------------------------------- pictures of a world with one incident

  datatype Picture = Picture(
    incident: Incident, commands: map<Id, ActionCommand>, keys: map<IdempotencyKey, Id>, leases: map<Id, Lease>,
    recovery: map<Id, Recovery>, improved: bool)

  ghost predicate Shows(w: World, n: Names, p: Picture) {
    && w.incidents.items == map[n.incident := p.incident] && w.incidents.log.Keys == {n.incident}
    && w.actions == ActionStore(p.commands, p.keys) && w.leases == p.leases && w.recovery == p.recovery && w.ledger == []
    && w.attempts == map[]
    && (p.improved ==> SomeImproved(w, n.incident))
  }

  function FirstIncident(n: Names, now: int): Incident {
    Incident(n.incident, n.correlation, n.entity, n.trigger, Detected, 0, Undecided, VerificationState.Pending, RecoveryState.Pending,
             Open, now, now, None, 0)
  }

  /** A command without cost that every guard lets pass. */
  function Planned(n: Names, id: Id, resource: Id, plan: int, s: Settings, now: int): ActionCommand {
    ActionCommand(id, n.incident, GeofencePlan, resource, plan, now, false,
                  Preconditions(Some(s.minimumConfidence), Some(s.maxBlastRadius), Some(0), true, false), Ready, None, 0, None, None, 0)
  }

  function Verdict1(n: Names, commands: seq<ActionCommand>): Verdict {
    Verdict(n.incident, 0, Detected, Allow, commands, false)
  }

  function ApprovedIncident(n: Names, now: int): Incident {
    FirstIncident(n, now).(state := Approved, planVersion := 1, warden := Allow, outcome := AuthorizedPlan, version := 5)
  }

  function Opening(n: Names, now: int): Picture { Picture(FirstIncident(n, now), map[], map[], map[], map[], false) }

  function Nothing(): World {
    World(ActionStore(map[], map[]), IncidentStore(map[], map[]), map[], [], map[], map[], map[], map[], map[],
          Journal({}, {}, {}, []))
  }

  lemma OpenedShows(n: Names, now: int, c: Runs.Config)
    requires n.Valid()
    ensures var e := Runs.Opened(FirstIncident(n, now));
            Runs.Admissible(Nothing(), e) && Shows(Runs.Step(Nothing(), e, c), n, Opening(n, now))
  {}

  // ---------------------------------------------------------------- the decision

  /** The walk to APPROVED, field by field. */
  lemma {:induction false} ApprovedFields(s: IncidentStore, id: Id, at: int)
    requires id in s.items && OnDecisionPath(s.items[id].state)
    ensures s.Advanced(id, Approved, at).items == s.items[id :=
              s.items[id].(state := Approved, updatedAt := at, version := s.items[id].version + StepsTo(s.items[id].state, Approved))]
    ensures s.log.Keys == s.items.Keys ==> s.Advanced(id, Approved, at).log.Keys == s.log.Keys
    decreases StepsTo(s.items[id].state, Approved)
  {
    var next := NextOnPath(s.items[id].state, Approved);
    var t := s.Transition(id, next, at).value;
    if next == Approved {
      assert t.Advanced(id, Approved, at) == t;
    } else {
      ApprovedFields(t, id, at);
    }
  }

  /** One planned command, or two for two resources. */
  lemma CreateOne(a: ActionCommand)
    ensures CreateAll(ActionStore(map[], map[]), [a]) == ActionStore(map[a.commandId := a], map[a.Key() := a.commandId])
  {
    assert [a][..0] == [];
  }

  lemma CreateTwo(a: ActionCommand, b: ActionCommand)
    requires a.Key() != b.Key()
    ensures CreateAll(ActionStore(map[], map[]), [a, b])
            == ActionStore(map[a.commandId := a][b.commandId := b], map[a.Key() := a.commandId][b.Key() := b.commandId])
  {
    assert [a, b][..1] == [a];
    CreateOne(a);
  }

  /** What the walk leaves of a fresh incident. */
  lemma WalkShows(w: IncidentStore, n: Names, now: int)
    requires w.items == map[n.incident := FirstIncident(n, now)] && w.log.Keys == {n.incident}
    ensures w.Advanced(n.incident, Approved, now).items == map[n.incident := FirstIncident(n, now).(state := Approved, version := 4)]
    ensures w.Advanced(n.incident, Approved, now).log.Keys == {n.incident}
  {
    ApprovedFields(w, n.incident, now);
  }

  lemma DecisionWritten(store: IncidentStore, n: Names, now: int, commands: seq<ActionCommand>)
    requires store.items == map[n.incident := FirstIncident(n, now).(state := Approved, version := 4)]
    ensures WithDecision(store, Verdict1(n, commands), 1, now) == store.(items := map[n.incident := ApprovedIncident(n, now)])
  {}

  lemma CommitShows(w: World, n: Names, now: int, commands: seq<ActionCommand>)
    requires n.Valid() && w.incidents.items == map[n.incident := FirstIncident(n, now)] && w.incidents.log.Keys == {n.incident}
    ensures var v := Commit(w, Verdict1(n, commands), now).world;
            && v == w.(incidents := v.incidents, outbox := v.outbox)
            && v.incidents.items == map[n.incident := ApprovedIncident(n, now)] && v.incidents.log.Keys == {n.incident}
  {
    WalkShows(w.incidents, n, now);
    var store := w.incidents.Advanced(n.incident, Approved, now);
    CommitIs(w, Verdict1(n, commands), now, store);
    DecisionWritten(store, n, now, commands);
  }

  lemma DecidedShows(w: World, n: Names, now: int, commands: seq<ActionCommand>, c: Runs.Config)
    requires n.Valid() && Shows(w, n, Opening(n, now)) && PlanCommands(w.actions, commands, n.incident, 1)
    ensures var e := Runs.Decision(Verdict1(n, commands), now); var store := CreateAll(ActionStore(map[], map[]), commands);
            Runs.Admissible(w, e) && Shows(Runs.Step(w, e, c), n,
                                           Picture(ApprovedIncident(n, now), store.byId, store.byKey, map[], map[], false))
  {
    FreshDelivery(w, Verdict1(n, commands), now);
    CommitShows(w.(actions := CreateAll(w.actions, commands)), n, now, commands);
  }

  // ---------------------------------------------------------------- the provider call

  function Keyed(a: ActionCommand): map<IdempotencyKey, Id> { map[a.Key() := a.commandId] }

  function Approving(n: Names, s: Settings, now: int): Picture {
    var a := Planned(n, n.command, n.resource, 1, s, now);
    Picture(ApprovedIncident(n, now), map[n.command := a], Keyed(a), map[], map[], false)
  }

  function SentCommand(n: Names, s: Settings, now: int): ActionCommand {
    Planned(n, n.command, n.resource, 1, s, now).(state := ActionState.Sent, attemptCount := 1, lastAttemptAt := Some(now), version := 1)
  }

  function Mitigating1(n: Names, now: int): Incident { ApprovedIncident(n, now).(state := Mitigating, version := 6) }

  function Sending(n: Names, s: Settings, now: int): Picture {
    Picture(Mitigating1(n, now), map[n.command := SentCommand(n, s, now)], Approving(n, s, now).keys,
            map[n.resource := Lease(n.incident, Some(now + 300), true, 0)], map[], false)
  }

  function At(now: int): Instants { Instants(now, now, now, now, now) }

  function CanDo(): Capability { Capability(true, true) }

  /** The command is eligible, before and after it is sent. */
  lemma PlannedEligible(w: World, n: Names, s: Settings, now: int, i: Incident, a: ActionCommand)
    requires w.incidents.items == map[n.incident := i] && w.actions.byId == map[n.command := a] && w.ledger == [] && 0 <= s.maxDevices
    requires Actionable(i.state) && i.warden.Allow? && i.planVersion == 1
    requires a == Planned(n, n.command, n.resource, 1, s, now) || a == SentCommand(n, s, now)
    ensures Eligible(w, a, s, now)
  {}

  /** From READY to `adapter.execute`. */
  lemma ExecuteShows(w: World, n: Names, s: Settings, now: int)
    requires n.Valid() && Permissive(s) && Shows(w, n, Approving(n, s, now))
    ensures w.actions.Filed() && n.rollback !in w.actions.byId
    ensures Shows(Start(w, n.command, s, CanDo(), n.rollback, At(now), None).world, n, Sending(n, s, now))
  {
    var a := Planned(n, n.command, n.resource, 1, s, now);
    PlannedEligible(w, n, s, now, ApprovedIncident(n, now), a);
    var w1 := EnsureOwnership(w, a, now).value;
    LeasedShows(w, n, s, now);
    TakeUpShows(w1, n, s, now);
    StartIs(w, a, s, n.rollback, now, w1);
  }

  /** The lease is free. */
  lemma LeasedShows(w: World, n: Names, s: Settings, now: int)
    requires n.Valid() && Shows(w, n, Approving(n, s, now))
    ensures var r := EnsureOwnership(w, Planned(n, n.command, n.resource, 1, s, now), now);
            r.Some? && Shows(r.value, n, Approving(n, s, now).(leases := Sending(n, s, now).leases))
  {}

  lemma StartIs(w: World, a: ActionCommand, s: Settings, freshId: Id, now: int, w1: World)
    requires w.actions.Filed() && a.commandId in w.actions.byId && w.actions.byId[a.commandId] == a && a.state.Ready?
             && a.incidentId in w.incidents.items
    requires Eligible(w, a, s, now) && ModeAllows(s) && EnsureOwnership(w, a, now) == Some(w1)
    ensures Start(w, a.commandId, s, CanDo(), freshId, At(now), None) == TakeUp(w1, a, s, At(now), None)
  {
    assert StartReady(w, a, s, CanDo(), At(now), None) == Own(w, a, s, At(now), None);
  }

  lemma TakeUpShows(w: World, n: Names, s: Settings, now: int)
    requires n.Valid() && Permissive(s) && Shows(w, n, Approving(n, s, now).(leases := Sending(n, s, now).leases))
    ensures Shows(TakeUp(w, Planned(n, n.command, n.resource, 1, s, now), s, At(now), None).world, n, Sending(n, s, now))
  {
    var a := Planned(n, n.command, n.resource, 1, s, now);
    PlannedEligible(w, n, s, now, ApprovedIncident(n, now), a);
    var r := UpdateAction(MoveIncidentFrom(w, n.incident, Approved, Mitigating, now), a, ActionState.Sent, None, now);
    ClaimShows(w, n, s, now);
    CallShows(r.world, n, s, now);
    TakeUpIs(w, a, s, At(now), r);
  }

  lemma TakeUpIs(w: World, a: ActionCommand, s: Settings, t: Instants, r: Eff<ActionCommand>)
    requires a.incidentId in w.incidents.items && a.state.Ready? && Eligible(w, a, s, t.rechecked)
    requires r == UpdateAction(MoveIncidentFrom(w, a.incidentId, Approved, Mitigating, t.rechecked), a,
                               ActionState.Sent, None, t.rechecked) && r.Ok?
    ensures TakeUp(w, a, s, t, None) == CallProvider(r.world, r.value, s, t)
  {}

  /** READY -> SENT, with the incident moved along. */
  lemma ClaimShows(w: World, n: Names, s: Settings, now: int)
    requires n.Valid() && Shows(w, n, Approving(n, s, now).(leases := Sending(n, s, now).leases))
    ensures var r := UpdateAction(MoveIncidentFrom(w, n.incident, Approved, Mitigating, now),
                                  Planned(n, n.command, n.resource, 1, s, now), ActionState.Sent, None, now);
            r.Ok? && r.value == SentCommand(n, s, now) && Shows(r.world, n, Sending(n, s, now))
  {
    var w1 := MoveIncidentFrom(w, n.incident, Approved, Mitigating, now);
    var r := UpdateAction(w1, Planned(n, n.command, n.resource, 1, s, now), ActionState.Sent, None, now);
    assert w1.incidents.items == map[n.incident := Mitigating1(n, now)];
    assert r.world.actions.byId == map[n.command := SentCommand(n, s, now)];
  }

  /** The last look at every authority, and the call. */
  lemma CallShows(w: World, n: Names, s: Settings, now: int)
    requires n.Valid() && Permissive(s) && Shows(w, n, Sending(n, s, now))
    ensures Shows(CallProvider(w, SentCommand(n, s, now), s, At(now)).world, n, Sending(n, s, now))
  {
    var sent := SentCommand(n, s, now);
    PlannedEligible(w, n, s, now, Mitigating1(n, now), sent);
    assert CallProvider(w, sent, s, At(now)) == ChargeAndCall(w, sent, now);
  }

  // ---------------------------------------------------------------- the provider answers

  function Acked(n: Names, s: Settings, now: int): ActionCommand {
    SentCommand(n, s, now).(state := Acknowledged, providerResourceId := Some(n.provider), version := 2)
  }

  function Verifying1(n: Names, now: int): Incident { Mitigating1(n, now).(state := Verifying, version := 7) }

  lemma AcceptedIs(w: World, sent: ActionCommand, provider: Option<Id>, now: int, c: Runs.Config)
    requires w.actions.Filed() && UpdateAction(w, sent, Acknowledged, provider, now).Ok?
    ensures Runs.Step(w, Runs.ExecuteAnswered(sent, Accepted(provider), now, None), c)
            == MoveIncidentFrom(UpdateAction(w, sent, Acknowledged, provider, now).world, sent.incidentId, Mitigating, Verifying, now)
  {}

  lemma AckedFacts(w: World, n: Names, s: Settings, now: int)
    requires n.command in w.actions.byId && w.actions.byId[n.command] == SentCommand(n, s, now)
    ensures var r := UpdateAction(w, SentCommand(n, s, now), Acknowledged, Some(n.provider), now);
            r.Ok? && r.world == w.(actions := w.actions.(byId := w.actions.byId[n.command := Acked(n, s, now)]))
  {}

  lemma VerifyingFacts(w: World, n: Names, now: int)
    requires w.incidents.items == map[n.incident := Mitigating1(n, now)] && w.incidents.log.Keys == {n.incident}
    ensures var v := MoveIncidentFrom(w, n.incident, Mitigating, Verifying, now);
            && v == w.(incidents := v.incidents) && v.incidents.items == map[n.incident := Verifying1(n, now)]
            && v.incidents.log.Keys == {n.incident}
  {}

  /** The provider accepts the command; whatever else is stored stays. */
  lemma AnsweredShows(w: World, n: Names, s: Settings, now: int, c: Runs.Config, p: Picture, v: World)
    requires n.Valid() && w.actions.Filed() && Shows(w, n, p) && p.incident == Mitigating1(n, now) && !p.improved
    requires n.command in p.commands && p.commands[n.command] == SentCommand(n, s, now)
    requires v == Runs.Step(w, Runs.ExecuteAnswered(SentCommand(n, s, now), Accepted(Some(n.provider)), now, None), c)
    ensures Shows(v, n, p.(incident := Verifying1(n, now), commands := p.commands[n.command := Acked(n, s, now)]))
  {
    AckedFacts(w, n, s, now);
    AcceptedIs(w, SentCommand(n, s, now), Some(n.provider), now, c);
    VerifyingFacts(w.(actions := w.actions.(byId := w.actions.byId[n.command := Acked(n, s, now)])), n, now);
  }

  function Doomed(n: Names, s: Settings, now: int): ActionCommand {
    Acked(n, s, now).(state := RollbackRequired, version := 3)
  }

  function Undoing(n: Names, s: Settings, now: int): ActionCommand {
    RollbackCommand(Doomed(n, s, now), n.rollback, now)
  }

  function UndoingSent(n: Names, s: Settings, now: int): ActionCommand {
    Undoing(n, s, now).(state := ActionState.Sent, attemptCount := 1, lastAttemptAt := Some(now), version := 1)
  }

  function Refuted(n: Names, now: int): Incident { Verifying1(n, now).(verification := Unchanged, version := 8) }

  /** The incident shows that its recovery is releasing resources. */
  function Releasing1(n: Names, now: int): Incident { Refuted(n, now).(recovery := Releasing, version := 9) }

  function Verified(n: Names, s: Settings, now: int): Picture {
    Sending(n, s, now).(incident := Verifying1(n, now), commands := Sending(n, s, now).commands[n.command := Acked(n, s, now)])
  }

  function Rolling(n: Names, s: Settings, now: int): Picture {
    Picture(Releasing1(n, now), map[n.command := Doomed(n, s, now)][n.rollback := UndoingSent(n, s, now)],
            Verified(n, s, now).keys[Undoing(n, s, now).Key() := n.rollback], Sending(n, s, now).leases,
            map[n.incident := Recovery(Releasing, 0)], false)
  }

  /** The verification refutes the mitigation: the rollback command is created, claimed and sent. */
  lemma RefutedShows(w: World, n: Names, s: Settings, now: int, c: Runs.Config)
    requires n.Valid() && c.settings == s && Permissive(s) && Shows(w, n, Verified(n, s, now))
    ensures var e := Runs.VerifyAnswered(Acked(n, s, now), NoImprovement, CanDo(), n.rollback, now, None);
            w.actions.Filed() && Runs.Admissible(w, e) && Shows(Runs.Step(w, e, c), n, Rolling(n, s, now))
  {
    var a := Acked(n, s, now);
    var w1 := SaveCheck(w, Verify(a.commandId), a.incidentId, NoImprovement, Unchanged, now);
    var w2 := WriteIncident(w1, a.incidentId, Some(Unchanged), None, None, now).world;
    assert w2.incidents.items == map[n.incident := Refuted(n, now)];
    RefutedPublished(w2, n, s, now);
    RefutedIs(w, a, CanDo(), n.rollback, now, c, w2);
  }

  lemma RefutedIs(w: World, a: ActionCommand, cap: Capability, freshId: Id, now: int, c: Runs.Config, w2: World)
    requires w.actions.Filed() && freshId !in w.actions.byId && a.incidentId in w.incidents.items
    requires w2 == WriteIncident(SaveCheck(w, Verify(a.commandId), a.incidentId, NoImprovement, Unchanged, now),
                                 a.incidentId, Some(Unchanged), None, None, now).world
    ensures Runs.Step(w, Runs.VerifyAnswered(a, NoImprovement, cap, freshId, now, None),
                      c) == Publish(w2, a, Unchanged, c.settings, cap, freshId, now, None).world
  {
    RefutedPublishes(w, a, c.settings, cap, freshId, now, w2);
  }

  lemma RefutedPublishes(w: World, a: ActionCommand, s: Settings, cap: Capability, freshId: Id, now: int, w2: World)
    requires w.actions.Filed() && a.incidentId in w.incidents.items
    requires w2 == WriteIncident(SaveCheck(w, Verify(a.commandId), a.incidentId, NoImprovement, Unchanged, now),
                                 a.incidentId, Some(Unchanged), None, None, now).world
    ensures AfterVerify(w, a, NoImprovement, s, cap, freshId, now, None) == Publish(w2, a, Unchanged, s, cap, freshId, now, None)
  {}

  /** A refuted verification goes straight into the rollback. */
  lemma PublishedUnchanged(w: World, a: ActionCommand, s: Settings, cap: Capability, freshId: Id, now: int,
                           u: Eff<ActionCommand>)
    requires w.actions.Filed() && u == UpdateAction(w, a, RollbackRequired, None, now) && u.Ok?
    ensures Publish(w, a, Unchanged, s, cap, freshId, now, None) == BeginRollback(u.world, u.value, s, cap, freshId, now, None)
  {}

  lemma RefutedPublished(w: World, n: Names, s: Settings, now: int)
    requires n.Valid() && Permissive(s) && Shows(w, n, Verified(n, s, now).(incident := Refuted(n, now)))
    ensures w.actions.Filed() && Shows(Publish(w, Acked(n, s, now), Unchanged, s, CanDo(), n.rollback, now, None).world,
                                       n, Rolling(n, s, now))
  {
    var r := UpdateAction(w, Acked(n, s, now), RollbackRequired, None, now);
    assert r.Ok? && r.value == Doomed(n, s, now) && r.world.actions.byId == map[n.command := Doomed(n, s, now)];
    RollingShows(r.world, n, s, now);
    PublishedUnchanged(w, Acked(n, s, now), s, CanDo(), n.rollback, now, r);
  }

  /** What is stored once the rollback command is there, and once it is sent. */
  function Created(n: Names, s: Settings, now: int, r: ActionCommand): Picture {
    Picture(Refuted(n, now), map[n.command := Doomed(n, s, now)][n.rollback := r], Rolling(n, s, now).keys,
            Sending(n, s, now).leases, map[], false)
  }

  lemma RollingShows(w: World, n: Names, s: Settings, now: int)
    requires n.Valid() && Permissive(s)
    requires Shows(w, n, Verified(n, s, now).(incident := Refuted(n, now), commands := map[n.command := Doomed(n, s, now)]))
    ensures w.actions.Filed() && Shows(BeginRollback(w, Doomed(n, s, now), s, CanDo(), n.rollback, now, None).world, n,
                                       Rolling(n, s, now))
  {
    var a, r := Doomed(n, s, now), Undoing(n, s, now);
    assert r.Key() !in w.actions.byKey;
    var store := w.actions.CreateOrGet(r).0;
    var w1 := w.(actions := store);
    assert Shows(w1, n, Created(n, s, now, r));
    UndertakeShows(w1, n, s, now);
    assert BeginRollback(w, a, s, CanDo(), n.rollback, now, None) == Undertake(w1, a, r, now, None);
  }

  lemma UndertakeShows(w: World, n: Names, s: Settings, now: int)
    requires n.Valid() && Shows(w, n, Created(n, s, now, Undoing(n, s, now)))
    ensures Shows(Undertake(w, Doomed(n, s, now), Undoing(n, s, now), now, None).world, n, Rolling(n, s, now))
  {
    var u := UpdateAction(w, Undoing(n, s, now), ActionState.Sent, None, now);
    assert u.Ok? && u.value == UndoingSent(n, s, now);
    assert u.world.actions.byId == Rolling(n, s, now).commands;
    ClaimedShows(u.world, n, s, now);
  }

  lemma ClaimedShows(w: World, n: Names, s: Settings, now: int)
    requires n.Valid() && Shows(w, n, Created(n, s, now, UndoingSent(n, s, now)))
    ensures Shows(ClaimedRollback(w, Doomed(n, s, now), UndoingSent(n, s, now), now, None).world, n, Rolling(n, s, now))
  {
    var v := SaveRecovery(w, n.incident, Releasing, now);
    assert v.Ok? && v.world.incidents.items == map[n.incident := Releasing1(n, now)];
    assert v.world == w.(recovery := v.world.recovery, incidents := v.world.incidents) && v.world.incidents.log == w.incidents.log;
    HeldShows(v.world, n, s, now);
    assert ClaimedRollback(w, Doomed(n, s, now), UndoingSent(n, s, now), now, None).world
           == v.world.(journal := v.world.journal.(calls := v.world.journal.calls + [RollbackCall(n.command)]));
  }

  lemma HeldShows(w: World, n: Names, s: Settings, now: int)
    requires w.leases == Sending(n, s, now).leases
    ensures OwnershipCurrent(w, Doomed(n, s, now), now)
  {}

  function UndoingAcked(n: Names, s: Settings, now: int): ActionCommand {
    UndoingSent(n, s, now).(state := Acknowledged, version := 2)
  }

  function Released(n: Names, s: Settings, now: int): Picture {
    Rolling(n, s, now).(commands := Rolling(n, s, now).commands[n.rollback := UndoingAcked(n, s, now)])
  }

  /** The provider accepts the rollback. */
  lemma ReleasedShows(w: World, n: Names, s: Settings, now: int)
    requires n.Valid() && Shows(w, n, Rolling(n, s, now))
    ensures w.actions.Filed()
    ensures Shows(AfterRollback(w, Doomed(n, s, now), UndoingSent(n, s, now), Accepted(None), false, now, None).world,
                  n, Released(n, s, now))
  {}

  lemma ReleasedFacts(w: World, n: Names, s: Settings, now: int)
    requires n.Valid() && Shows(w, n, Released(n, s, now))
    ensures var a, b := Doomed(n, s, now), UndoingAcked(n, s, now);
            && w.actions.Filed() && InState(w, n.incident, Verifying) && w.incidents.items[n.incident].triggerEventId == n.trigger
            && a.incidentId == b.incidentId == n.incident && a.commandId != b.commandId
            && b.commandId in w.actions.byId && w.actions.byId[b.commandId] == b && a.commandId in w.actions.byId
               && w.actions.byId[a.commandId] == a
            && n.incident in w.recovery && w.recovery[n.incident].state.Releasing?
            && n.resource in w.leases && w.leases[n.resource].owned && w.leases[n.resource].owner == n.incident
  {}

  lemma VerifiedIs(w: World, a: ActionCommand, b: ActionCommand, now: int)
    ensures AfterVerifyRollback(w, a, b, true, now) == FinishRollback(Lifted(w, a, b, now), a, b, now)
  {}

  /** The world once the verified rollback is on record. */
  function Lifted(w: World, a: ActionCommand, b: ActionCommand, now: int): World {
    var w1 := MoveIncidentFrom(w, a.incidentId, Verifying, Recovering, now);
    w1.(journal := w1.journal.(undone := w1.journal.undone + {a.commandId, b.commandId}, recovered := w1.journal.recovered + {a.incidentId}))
  }

  /** The verified rollback: the incident is resolved, and its lease stands. */
  lemma UndoneStrands(w: World, n: Names, a: ActionCommand, b: ActionCommand, now: int)
    requires w.actions.Filed() && n.Valid() && InState(w, n.incident, Verifying)
             && w.incidents.items[n.incident].triggerEventId == n.trigger
    requires a.incidentId == b.incidentId == n.incident && a.commandId != b.commandId
    requires b.commandId in w.actions.byId && w.actions.byId[b.commandId] == b && a.commandId in w.actions.byId
             && w.actions.byId[a.commandId] == a
    requires n.incident in w.recovery && w.recovery[n.incident].state.Releasing?
    ensures var v := AfterVerifyRollback(w, a, b, true, now).world; InState(v, n.incident, Resolved) && v.leases == w.leases
  {
    var w2 := Lifted(w, a, b, now);
    assert InState(w2, n.incident, Recovering) && w2.incidents.items[n.incident].triggerEventId == n.trigger;
    VerifiedIs(w, a, b, now);
    FinishStrands(w2, n, a, b, now);
  }

  lemma CommandsAreWritten(w: World, a: ActionCommand, b: ActionCommand, now: int)
    requires w.actions.Filed() && a.commandId != b.commandId
    requires b.commandId in w.actions.byId && w.actions.byId[b.commandId] == b && a.commandId in w.actions.byId
             && w.actions.byId[a.commandId] == a
    ensures var w1 := UpdateAction(w, b, RolledBack, None, now);
            w1.Ok? && UndoOriginal(w1.world, a, now).Ok?
              && UndoOriginal(w1.world, a, now).world == w.(actions := UndoOriginal(w1.world, a, now).world.actions)
            && w1.value.incidentId == b.incidentId
  {
    var w1 := UpdateAction(w, b, RolledBack, None, now);
    assert w1.Ok? && w1.world.actions.byId[a.commandId] == a;
  }

  lemma RecoveryIsWritten(w: World, incident: Id, now: int)
    requires InState(w, incident, Recovering) && incident in w.recovery && w.recovery[incident].state.Releasing?
    ensures var r := SaveRecovery(w, incident, RecoveryState.Complete, now);
            && r.Ok? && incident in ResolveRolledBack(r.world, incident, now).incidents.items
            && ResolveRolledBack(r.world, incident, now).incidents.items[incident].triggerEventId == w.incidents.items[incident].triggerEventId
  {
    var r := SaveRecovery(w, incident, RecoveryState.Complete, now);
    assert r.Ok? && InState(r.world, incident, Recovering);
    assert r.world.incidents.items[incident].triggerEventId == w.incidents.items[incident].triggerEventId;
  }

  lemma FinishIsOk(w: World, a: ActionCommand, b: ActionCommand, now: int)
    requires w.actions.Filed() && InState(w, a.incidentId, Recovering) && b.incidentId == a.incidentId && a.commandId != b.commandId
    requires b.commandId in w.actions.byId && w.actions.byId[b.commandId] == b
    requires a.commandId in w.actions.byId && w.actions.byId[a.commandId] == a
    requires a.incidentId in w.recovery && w.recovery[a.incidentId].state.Releasing?
             && w.incidents.items[a.incidentId].triggerEventId != []
    ensures FinishRollback(w, a, b, now).Ok?
  {
    var w1 := UpdateAction(w, b, RolledBack, None, now);
    CommandsAreWritten(w, a, b, now);
    RecoveryIsWritten(UndoOriginal(w1.world, a, now).world, a.incidentId, now);
  }

  lemma FinishStrands(w: World, n: Names, a: ActionCommand, b: ActionCommand, now: int)
    requires n.Valid() && w.actions.Filed() && InState(w, n.incident, Recovering) && a.incidentId == n.incident == b.incidentId
    requires a.commandId != b.commandId && b.commandId in w.actions.byId && w.actions.byId[b.commandId] == b
    requires a.commandId in w.actions.byId && w.actions.byId[a.commandId] == a
    requires n.incident in w.recovery && w.recovery[n.incident].state.Releasing? && w.incidents.items[n.incident].triggerEventId != []
    ensures var v := FinishRollback(w, a, b, now).world; InState(v, n.incident, Resolved) && v.leases == w.leases
  {
    FinishIsOk(w, a, b, now);
    Lifecycle.RollbackCloses(w, a, b, now);
  }

  // ---------------------------------------------------------------- a block

  function Siblings(n: Names, s: Settings, now: int): seq<ActionCommand> {
    [Planned(n, n.command, n.resource, 1, s, now), Planned(n, n.second, n.other, 1, s, now)]
  }

  function BothApproved(n: Names, s: Settings, now: int): Picture {
    var a, b := Siblings(n, s, now)[0], Siblings(n, s, now)[1];
    Picture(ApprovedIncident(n, now), map[n.command := a][n.second := b],
            map[a.Key() := n.command][b.Key() := n.second], map[], map[], false)
  }

  /** An adapter that cannot mutate. */
  function CannotDo(): Capability { Capability(false, false) }

  lemma BlockIs(w: World, a: ActionCommand, cap: Capability, freshId: Id, now: int, c: Runs.Config, v: World)
    requires w.actions.Filed() && a.commandId in w.actions.byId && w.actions.byId[a.commandId] == a && a.state.Ready? && !cap.mutation
    requires freshId !in w.actions.byId && v == Runs.Step(w, Runs.Execute(a.commandId, cap, freshId, At(now), None), c)
    requires UpdateAction(w, a, ActionState.Failed, None, now).Ok?
    ensures v == MoveIncidentFrom(UpdateAction(w, a, ActionState.Failed, None, now).world, a.incidentId, Approved,
                                  Blocked, now).(outbox := v.outbox)
  {}

  lemma BothFacts(w: World, n: Names, s: Settings, now: int)
    requires n.Valid() && Shows(w, n, BothApproved(n, s, now))
    ensures w.actions.Filed() && InState(w, n.incident, Approved) && n.rollback !in w.actions.byId
    ensures n.command in w.actions.byId && w.actions.byId[n.command] == Planned(n, n.command, n.resource, 1, s, now)
    ensures n.second in w.actions.byId && w.actions.byId[n.second] == Planned(n, n.second, n.other, 1, s, now)
  {}

  /** The first command is blocked with its incident, the second stays READY. */
  lemma BlockStrands(w: World, n: Names, s: Settings, now: int, c: Runs.Config, a: ActionCommand, v: World)
    requires w.actions.Filed() && InState(w, n.incident, Approved) && n.command != n.second && n.rollback !in w.actions.byId
    requires n.command in w.actions.byId && w.actions.byId[n.command] == a && a.commandId == n.command && a.state.Ready?
             && a.incidentId == n.incident
    requires n.second in w.actions.byId && w.actions.byId[n.second].state.Ready? && w.actions.byId[n.second].incidentId == n.incident
    requires v == Runs.Step(w, Runs.Execute(n.command, CannotDo(), n.rollback, At(now), None), c)
    ensures InState(v, n.incident, Blocked) && Lifecycle.HasSibling(v, n.incident, None)
  {
    var w1 := UpdateAction(w, a, ActionState.Failed, None, now);
    assert w1.Ok? && w1.world == w.(actions := w1.world.actions) && w1.world.actions.byId[n.second] == w.actions.byId[n.second];
    BlockIs(w, a, CannotDo(), n.rollback, now, c, v);
    BlockLeaves(w1.world, n, now, v);
  }

  lemma BlockLeaves(w: World, n: Names, now: int, v: World)
    requires InState(w, n.incident, Approved) && v == MoveIncidentFrom(w, n.incident, Approved, Blocked, now).(outbox := v.outbox)
    requires n.second in w.actions.byId && w.actions.byId[n.second].state.Ready? && w.actions.byId[n.second].incidentId == n.incident
    ensures InState(v, n.incident, Blocked) && Lifecycle.HasSibling(v, n.incident, None)
  {
    assert n.second in v.actions.byId;
  }

  // ---------------------------------------------------------------- a late decision

  function Late(n: Names, s: Settings, now: int): ActionCommand { Planned(n, n.second, n.resource, 2, s, now) }

  function LateVerdict(n: Names, s: Settings, now: int): Verdict {
    Verdict(n.incident, 6, Mitigating, Allow, [Late(n, s, now)], false)
  }

  function LateCreated(n: Names, s: Settings, now: int): Picture {
    var p, a := Sending(n, s, now), Late(n, s, now);
    p.(commands := p.commands[n.second := a], keys := p.keys[a.Key() := n.second])
  }

  lemma LateStored(n: Names, s: Settings, now: int)
    requires n.Valid()
    ensures var p, a := Sending(n, s, now), Late(n, s, now);
            && a.Key() !in p.keys && ActionStore(p.commands, p.keys).Filed()
            && CreateAll(ActionStore(p.commands, p.keys), [a]) == ActionStore(LateCreated(n, s, now).commands,
                                                                              LateCreated(n, s, now).keys)
  {
    var a := Late(n, s, now);
    assert [a][..0] == [];
  }

  /** The decision is delivered again while the mitigation is on its way: the handler raises, and its command is
      stored. */
  lemma LateShows(w: World, n: Names, s: Settings, now: int, v: World)
    requires n.Valid() && Shows(w, n, Sending(n, s, now)) && w.actions.Filed() && v == Decide(w, LateVerdict(n, s, now), now).world
    ensures Shows(v, n, LateCreated(n, s, now)) && Decide(w, LateVerdict(n, s, now), now) == Raised(v) && v != w
    ensures PlanCommands(w.actions, LateVerdict(n, s, now).commands, n.incident, 2)
  {
    LateStored(n, s, now);
    assert Late(n, s, now) in LateVerdict(n, s, now).commands;
    LateDeliveryCreates(w, LateVerdict(n, s, now), now);
  }

  /** The resolution gate opens. */
  lemma GateOpens(w: World, n: Names, s: Settings, now: int)
    requires InState(w, n.incident, Verifying) && SomeImproved(w, n.incident)
    requires w.actions.byId == Both(n, s, now, Succeeded(n, s, now))
    requires n.Valid()
    ensures var u := MaybeResolve(w, n.incident, 1, now); InState(u, n.incident, Resolved) && u.actions == w.actions
  {
    assert n.command in w.actions.byId;
    assert AllPlanActionsSucceeded(w, n.incident, 1);
    assert InState(MoveIncidentFrom(w, n.incident, Verifying, Resolved, now), n.incident, Resolved);
  }

  /** A successful verification, published. */
  lemma PublishedImproved(w: World, a: ActionCommand, s: Settings, cap: Capability, freshId: Id, now: int)
    requires w.actions.Filed() && UpdateAction(w, a, Success, None, now).Ok?
    ensures var v := Publish(w, a, Improved, s, cap, freshId, now, None).world;
            v == MaybeResolve(UpdateAction(w, a, Success, None, now).world, a.incidentId, a.planVersion, now).(outbox := v.outbox)
  {}

  /** The incident shows the verification before the command is written. */
  function Recorded(w: World, a: ActionCommand, now: int): World {
    WriteIncident(SaveCheck(w, Verify(a.commandId), a.incidentId, VerifyAnswer.VerifiedImproved, Improved, now),
                  a.incidentId, Some(Improved), None, None, now).world
  }

  lemma ImprovedStep(w: World, a: ActionCommand, cap: Capability, freshId: Id, now: int, c: Runs.Config)
    requires w.actions.Filed() && freshId !in w.actions.byId && a.incidentId in w.incidents.items
    requires UpdateAction(Recorded(w, a, now), a, Success, None, now).Ok?
    ensures var v := Runs.Step(w, Runs.VerifyAnswered(a, VerifyAnswer.VerifiedImproved, cap, freshId, now, None), c);
            v == MaybeResolve(UpdateAction(Recorded(w, a, now), a, Success, None, now).world, a.incidentId,
                              a.planVersion, now).(outbox := v.outbox)
  {
    PublishedImproved(Recorded(w, a, now), a, c.settings, cap, freshId, now);
  }

  lemma RecordedFacts(w: World, a: ActionCommand, now: int)
    requires InState(w, a.incidentId, Verifying)
    ensures var v := Recorded(w, a, now);
            v.actions == w.actions && InState(v, a.incidentId, Verifying) && SomeImproved(v, a.incidentId)
  {
    var w1 := SaveCheck(w, Verify(a.commandId), a.incidentId, VerifyAnswer.VerifiedImproved, Improved, now);
    assert Verify(a.commandId) in w1.checks;
  }

  /** What is stored when the late command is there and the provider has accepted. */
  function Both(n: Names, s: Settings, now: int, a: ActionCommand): map<Id, ActionCommand> {
    map[n.command := a][n.second := Late(n, s, now)]
  }

  function Successful(a: ActionCommand, now: int): ActionCommand {
    a.(state := Success, completedAt := Some(now), version := a.version + 1)
  }

  function Succeeded(n: Names, s: Settings, now: int): ActionCommand { Successful(Acked(n, s, now), now) }

  lemma UpdatedFacts(w: World, n: Names, s: Settings, now: int)
    requires n.Valid() && w.actions.byId == Both(n, s, now, Acked(n, s, now))
    ensures var r := UpdateAction(w, Acked(n, s, now), Success, None, now);
            r.Ok? && r.world == w.(actions := r.world.actions) && r.world.actions.byId == Both(n, s, now, Succeeded(n, s, now))
  {
    SucceededIs(w, Acked(n, s, now), now);
    BothUpdated(n, s, now, Acked(n, s, now), Succeeded(n, s, now));
  }

  lemma BothUpdated(n: Names, s: Settings, now: int, a: ActionCommand, b: ActionCommand)
    requires n.command != n.second
    ensures Both(n, s, now, a)[n.command := b] == Both(n, s, now, b)
  {}

  lemma SucceededIs(w: World, a: ActionCommand, now: int)
    requires a.commandId in w.actions.byId && w.actions.byId[a.commandId] == a
    ensures var r := UpdateAction(w, a, Success, None, now);
            && r.Ok? && r.world == w.(actions := r.world.actions)
            && r.world.actions.byId == w.actions.byId[a.commandId := Successful(a, now)]
  {}

  /** The world that a successful verification leaves, but for the outbox. */
  lemma SuccessStrands(u: World, n: Names, s: Settings, now: int, v: World)
    requires n.Valid() && InState(u, n.incident, Verifying) && SomeImproved(u, n.incident)
    requires u.actions.byId == Both(n, s, now, Succeeded(n, s, now))
    requires v == MaybeResolve(u, n.incident, 1, now).(outbox := v.outbox)
    ensures InState(v, n.incident, Resolved) && Lifecycle.HasSibling(v, n.incident, None)
  {
    GateOpens(u, n, s, now);
    assert n.second in v.actions.byId && v.actions.byId[n.second] == Late(n, s, now);
  }

  // ---------------------------------------------------------------- the runs

  /** Some run ends in `w`. */
  ghost predicate Reachable(w: World, c: Runs.Config) {
    exists worlds, events :: Runs.Run(worlds, events, c) && worlds[|events|] == w
  }

  lemma StartReachable(c: Runs.Config)
    ensures Reachable(Nothing(), c)
  {
    assert Runs.Run([Nothing()], [], c);
  }

  /** One step of a run. */
  ghost predicate Goes(w: World, e: Runs.Event, c: Runs.Config, v: World) {
    w.actions.Filed() && Runs.Admissible(w, e) && v == Runs.Step(w, e, c)
  }

  lemma RunGoes(worlds: seq<World>, events: seq<Runs.Event>, c: Runs.Config, i: nat)
    requires Runs.Run(worlds, events, c) && i < |events|
    ensures Goes(worlds[i], events[i], c, worlds[i + 1])
  {}

  lemma GoesRun(worlds: seq<World>, events: seq<Runs.Event>, c: Runs.Config)
    requires |worlds| == |events| + 1 && Runs.Empty(worlds[0]) && forall i :: 0 <= i < |events| ==> Goes(worlds[i], events[i], c, worlds[i + 1])
    ensures Runs.Run(worlds, events, c)
  {
    forall i | 0 <= i < |events|
      ensures worlds[i].actions.Filed() && Runs.Admissible(worlds[i], events[i]) && worlds[i + 1] == Runs.Step(worlds[i], events[i], c)
    {
      assert Goes(worlds[i], events[i], c, worlds[i + 1]);
    }
  }

  lemma ExtendChain<W, E>(goes: (W, E, W) -> bool, worlds: seq<W>, events: seq<E>, e: E, v: W)
    requires |worlds| == |events| + 1 && goes(worlds[|events|], e, v)
    requires forall i :: 0 <= i < |events| ==> goes(worlds[i], events[i], worlds[i + 1])
    ensures forall i :: 0 <= i < |events| + 1 ==> goes((worlds + [v])[i], (events + [e])[i], (worlds + [v])[i + 1])
  {}

  lemma Extend(worlds: seq<World>, events: seq<Runs.Event>, e: Runs.Event, c: Runs.Config, v: World)
    requires Runs.Run(worlds, events, c) && Goes(worlds[|events|], e, c, v)
    ensures Runs.Run(worlds + [v], events + [e], c) && (worlds + [v])[|events + [e]|] == v
  {
    var goes := (w: World, x: Runs.Event, u: World) => Goes(w, x, c, u);
    forall i | 0 <= i < |events|
      ensures goes(worlds[i], events[i], worlds[i + 1])
    {
      RunGoes(worlds, events, c, i);
    }
    ExtendChain(goes, worlds, events, e, v);
    var ws, es := worlds + [v], events + [e];
    forall i | 0 <= i < |es|
      ensures Goes(ws[i], es[i], c, ws[i + 1])
    {
      assert goes(ws[i], es[i], ws[i + 1]);
    }
    GoesRun(ws, es, c);
  }

  /** One more step of a run. */
  lemma Reach(w: World, e: Runs.Event, c: Runs.Config, v: World)
    requires Reachable(w, c) && w.actions.Filed() && Runs.Admissible(w, e) && v == Runs.Step(w, e, c)
    ensures Reachable(v, c)
  {
    var worlds, events :| Runs.Run(worlds, events, c) && worlds[|events|] == w;
    Extend(worlds, events, e, c, v);
  }

  lemma ClosedIsRefused(w: World, incident: Id, later: int)
    requires incident in w.incidents.items && Closed(w.incidents.items[incident].state)
    requires Lifecycle.HoldsLease(w, incident) || Lifecycle.HasSibling(w, incident, None)
    ensures !Lifecycle.Accepts(Lifecycle.Reconstructed(w, later))
  {
    Lifecycle.AcceptedBeforehand(w, later);
  }

  /** A decided incident. */
  lemma DecidedReachable(n: Names, now: int, c: Runs.Config, commands: seq<ActionCommand>) returns (w: World)
    requires n.Valid() && PlanCommands(ActionStore(map[], map[]), commands, n.incident, 1)
    ensures var store := CreateAll(ActionStore(map[], map[]), commands);
            Reachable(w, c) && Shows(w, n, Picture(ApprovedIncident(n, now), store.byId, store.byKey, map[], map[], false))
  {
    var w1 := OpenReachable(n, now, c);
    w := DecideReachable(w1, n, now, c, commands);
  }

  lemma DecideReachable(w1: World, n: Names, now: int, c: Runs.Config, commands: seq<ActionCommand>) returns (w: World)
    requires n.Valid() && Reachable(w1, c) && Shows(w1, n, Opening(n, now)) && PlanCommands(w1.actions, commands, n.incident, 1)
    ensures var store := CreateAll(ActionStore(map[], map[]), commands);
            Reachable(w, c) && Shows(w, n, Picture(ApprovedIncident(n, now), store.byId, store.byKey, map[], map[], false))
  {
    var e := Runs.Decision(Verdict1(n, commands), now);
    DecidedShows(w1, n, now, commands, c);
    w := Runs.Step(w1, e, c);
    Reach(w1, e, c, w);
  }

  /** A command that was sent to the provider. */
  lemma SentReachable(n: Names, now: int, c: Runs.Config) returns (w: World)
    requires n.Valid() && Permissive(c.settings)
    ensures Reachable(w, c) && Shows(w, n, Sending(n, c.settings, now))
  {
    var a := Planned(n, n.command, n.resource, 1, c.settings, now);
    CreateOne(a);
    var w1 := DecidedReachable(n, now, c, [a]);
    w := ExecuteReachable(w1, n, now, c);
  }

  lemma ExecuteReachable(w1: World, n: Names, now: int, c: Runs.Config) returns (w: World)
    requires n.Valid() && Permissive(c.settings) && Reachable(w1, c) && Shows(w1, n, Approving(n, c.settings, now))
    ensures Reachable(w, c) && Shows(w, n, Sending(n, c.settings, now))
  {
    ExecuteShows(w1, n, c.settings, now);
    w := Start(w1, n.command, c.settings, CanDo(), n.rollback, At(now), None).world;
    Reach(w1, Runs.Execute(n.command, CanDo(), n.rollback, At(now), None), c, w);
  }

  lemma AnsweredReachable(w1: World, n: Names, now: int, c: Runs.Config, p: Picture) returns (w: World)
    requires n.Valid() && Reachable(w1, c) && w1.actions.Filed() && Shows(w1, n, p) && p.incident == Mitigating1(n, now) && !p.improved
    requires n.command in p.commands && p.commands[n.command] == SentCommand(n, c.settings, now)
    ensures Reachable(w, c)
    ensures Shows(w, n, p.(incident := Verifying1(n, now), commands := p.commands[n.command := Acked(n, c.settings, now)]))
  {
    var e := Runs.ExecuteAnswered(SentCommand(n, c.settings, now), Accepted(Some(n.provider)), now, None);
    w := Runs.Step(w1, e, c);
    AnsweredShows(w1, n, c.settings, now, c, p, w);
    Reach(w1, e, c, w);
  }

  /** From the refuted mitigation to the accepted rollback. */
  lemma ReleasedReachable(w1: World, n: Names, now: int, c: Runs.Config) returns (w: World)
    requires n.Valid() && Permissive(c.settings) && Reachable(w1, c) && Shows(w1, n, Verified(n, c.settings, now))
    ensures Reachable(w, c) && Shows(w, n, Released(n, c.settings, now))
  {
    var s := c.settings;
    var e1 := Runs.VerifyAnswered(Acked(n, s, now), NoImprovement, CanDo(), n.rollback, now, None);
    RefutedShows(w1, n, s, now, c);
    var w2 := Runs.Step(w1, e1, c);
    Reach(w1, e1, c, w2);
    w := AcceptRollback(w2, n, now, c);
  }

  lemma AcceptRollback(w1: World, n: Names, now: int, c: Runs.Config) returns (w: World)
    requires n.Valid() && Reachable(w1, c) && Shows(w1, n, Rolling(n, c.settings, now))
    ensures Reachable(w, c) && Shows(w, n, Released(n, c.settings, now))
  {
    var a, b := Doomed(n, c.settings, now), UndoingSent(n, c.settings, now);
    ReleasedShows(w1, n, c.settings, now);
    w := AfterRollback(w1, a, b, Accepted(None), false, now, None).world;
    Reach(w1, Runs.RollbackAnswered(a, b, Accepted(None), false, now, None), c, w);
  }

  lemma UndoneReachable(w1: World, n: Names, now: int, c: Runs.Config) returns (w: World)
    requires n.Valid() && Reachable(w1, c) && Shows(w1, n, Released(n, c.settings, now))
    ensures Reachable(w, c) && InState(w, n.incident, Resolved) && Lifecycle.HoldsLease(w, n.incident)
  {
    var a, b := Doomed(n, c.settings, now), UndoingAcked(n, c.settings, now);
    ReleasedFacts(w1, n, c.settings, now);
    UndoneStrands(w1, n, a, b, now);
    w := AfterVerifyRollback(w1, a, b, true, now).world;
    Reach(w1, Runs.RollbackVerified(a, b, true, now), c, w);
  }

  /** A verified rollback resolves an incident whose lease stands, and the restart after it is refused: for all
      identities, every instant and all settings that allow mutations there is a run to such a state. */
  lemma RollbackStrandsLease(n: Names, now: int, c: Runs.Config, later: int) returns (w: World)
    requires n.Valid() && Permissive(c.settings)
    ensures Reachable(w, c) && InState(w, n.incident, Resolved) && Lifecycle.HoldsLease(w, n.incident)
    ensures !Lifecycle.Accepts(Lifecycle.Reconstructed(w, later))
  {
    w := SentReachable(n, now, c);
    SendingFacts(w, n, c.settings, now);
    w := AnsweredReachable(w, n, now, c, Sending(n, c.settings, now));
    w := ReleasedReachable(w, n, now, c);
    w := UndoneReachable(w, n, now, c);
    ClosedIsRefused(w, n.incident, later);
  }

  lemma BlockReachable(w1: World, n: Names, now: int, c: Runs.Config) returns (w: World)
    requires n.Valid() && Reachable(w1, c) && Shows(w1, n, BothApproved(n, c.settings, now))
    ensures Reachable(w, c) && InState(w, n.incident, Blocked) && Lifecycle.HasSibling(w, n.incident, None)
  {
    var e := Runs.Execute(n.command, CannotDo(), n.rollback, At(now), None);
    BothFacts(w1, n, c.settings, now);
    w := Runs.Step(w1, e, c);
    BlockStrands(w1, n, c.settings, now, c, w1.actions.byId[n.command], w);
    Reach(w1, e, c, w);
  }

  lemma SiblingsPlanned(n: Names, s: Settings, now: int)
    requires n.Valid()
    ensures PlanCommands(ActionStore(map[], map[]), Siblings(n, s, now), n.incident, 1)
    ensures CreateAll(ActionStore(map[], map[]), Siblings(n, s, now)) == ActionStore(BothApproved(n, s, now).commands,
                                                                                     BothApproved(n, s, now).keys)
  {
    CreateTwo(Siblings(n, s, now)[0], Siblings(n, s, now)[1]);
  }

  /** A blocked command takes its incident along and leaves a READY sibling: refused. */
  lemma BlockStrandsSibling(n: Names, now: int, c: Runs.Config, later: int) returns (w: World)
    requires n.Valid()
    ensures Reachable(w, c) && InState(w, n.incident, Blocked) && Lifecycle.HasSibling(w, n.incident, None)
    ensures !Lifecycle.Accepts(Lifecycle.Reconstructed(w, later))
  {
    SiblingsPlanned(n, c.settings, now);
    w := DecidedReachable(n, now, c, Siblings(n, c.settings, now));
    w := BlockReachable(w, n, now, c);
    ClosedIsRefused(w, n.incident, later);
  }

  lemma LateReachable(w1: World, n: Names, now: int, c: Runs.Config, v: Verdict) returns (w: World)
    requires n.Valid() && Reachable(w1, c) && w1.actions.Filed() && Shows(w1, n, Sending(n, c.settings, now))
             && v == LateVerdict(n, c.settings, now)
    ensures Reachable(w, c) && Shows(w, n, LateCreated(n, c.settings, now))
    ensures Decide(w1, v, now) == Raised(w) && w != w1
  {
    w := Decide(w1, v, now).world;
    LateShows(w1, n, c.settings, now, w);
    LateReaches(w1, v, now, c, w);
  }

  lemma LateReaches(w1: World, v: Verdict, now: int, c: Runs.Config, w: World)
    requires Reachable(w1, c) && w1.actions.Filed() && !v.decision.Undecided? && Decide(w1, v, now) == Raised(w)
    requires v.incidentId in w1.incidents.items ==>
               PlanCommands(w1.actions, v.commands, v.incidentId, w1.incidents.items[v.incidentId].planVersion + 1)
    ensures Reachable(w, c)
  {
    Reach(w1, Runs.Decision(v, now), c, w);
  }

  lemma SuccessReachable(w1: World, n: Names, now: int, c: Runs.Config) returns (w: World)
    requires n.Valid() && Reachable(w1, c) && w1.actions.Filed()
    requires InState(w1, n.incident, Verifying) && w1.actions.byId == Both(n, c.settings, now, Acked(n, c.settings, now))
    ensures Reachable(w, c) && InState(w, n.incident, Resolved) && Lifecycle.HasSibling(w, n.incident, None)
  {
    var a := Acked(n, c.settings, now);
    RecordedFacts(w1, a, now);
    UpdatedFacts(Recorded(w1, a, now), n, c.settings, now);
    w := SuccessStep(w1, a, n, now, c);
    SuccessStrands(UpdateAction(Recorded(w1, a, now), a, Success, None, now).world, n, c.settings, now, w);
  }

  lemma SuccessStep(w1: World, a: ActionCommand, n: Names, now: int, c: Runs.Config) returns (w: World)
    requires Reachable(w1, c) && w1.actions.Filed() && n.rollback !in w1.actions.byId && a.incidentId in w1.incidents.items
    requires UpdateAction(Recorded(w1, a, now), a, Success, None, now).Ok?
    ensures Reachable(w, c)
    ensures w == MaybeResolve(UpdateAction(Recorded(w1, a, now), a, Success, None, now).world, a.incidentId,
                              a.planVersion, now).(outbox := w.outbox)
  {
    var e := Runs.VerifyAnswered(a, VerifyAnswer.VerifiedImproved, CanDo(), n.rollback, now, None);
    ImprovedStep(w1, a, CanDo(), n.rollback, now, c);
    w := Runs.Step(w1, e, c);
    Reach(w1, e, c, w);
  }

  lemma BothShown(w: World, n: Names, s: Settings, now: int, p: Picture)
    requires n.Valid() && p == LateCreated(n, s, now)
    requires Shows(w, n, p.(incident := Verifying1(n, now), commands := p.commands[n.command := Acked(n, s, now)]))
    ensures InState(w, n.incident, Verifying) && w.actions.Filed()
    ensures w.actions.byId == Both(n, s, now, Acked(n, s, now))
  {}

  lemma SendingFacts(w: World, n: Names, s: Settings, now: int)
    requires n.Valid() && Shows(w, n, Sending(n, s, now))
    ensures w.actions.Filed() && n.second !in w.actions.byId
  {}

  lemma LateFacts(w: World, n: Names, s: Settings, now: int, p: Picture)
    requires n.Valid() && p == LateCreated(n, s, now) && Shows(w, n, p)
    ensures w.actions.Filed() && n.command in p.commands && p.commands[n.command] == SentCommand(n, s, now)
    ensures p.incident == Mitigating1(n, now) && !p.improved
  {}

  /** The provider accepts, and the mitigation succeeds. */
  lemma AnsweredAndVerified(w1: World, n: Names, now: int, c: Runs.Config, p: Picture) returns (w: World)
    requires n.Valid() && Reachable(w1, c) && p == LateCreated(n, c.settings, now) && Shows(w1, n, p)
    ensures Reachable(w, c) && InState(w, n.incident, Resolved) && Lifecycle.HasSibling(w, n.incident, None)
  {
    LateFacts(w1, n, c.settings, now, p);
    var w2 := AnsweredReachable(w1, n, now, c, p);
    BothShown(w2, n, c.settings, now, p);
    w := SuccessReachable(w2, n, now, c);
  }

  lemma LateIsStored(w: World, n: Names, s: Settings, now: int)
    requires n.Valid() && Shows(w, n, LateCreated(n, s, now))
    ensures n.second in w.actions.byId && w.actions.byId[n.second].state.Ready?
  {}

  /** A decision that is delivered again during the mitigation raises, and stores a command of a plan that its incident
      never takes up; the mitigation then succeeds, the command stays READY, and the restart is refused. */
  lemma LateDecisionStrandsCommand(n: Names, now: int, c: Runs.Config, later: int)
    returns (before: World, v: Verdict, after: World, w: World)
    requires n.Valid() && Permissive(c.settings)
    ensures Reachable(before, c) && before.actions.Filed() && v.decision.Allow? && Decide(before, v, now) == Raised(after)
    ensures after != before && n.second !in before.actions.byId && n.second in after.actions.byId
            && after.actions.byId[n.second].state.Ready?
    ensures Reachable(w, c) && InState(w, n.incident, Resolved) && Lifecycle.HasSibling(w, n.incident, None)
    ensures !Lifecycle.Accepts(Lifecycle.Reconstructed(w, later))
  {
    before := SentReachable(n, now, c);
    SendingFacts(before, n, c.settings, now);
    v := LateVerdict(n, c.settings, now);
    after := LateReachable(before, n, now, c, v);
    LateIsStored(after, n, c.settings, now);
    w := AnsweredAndVerified(after, n, now, c, LateCreated(n, c.settings, now));
    ClosedIsRefused(w, n.incident, later);
  }

  // ---------------------------------------------------------------- a block after an interrupted authorisation

  /** The process dies once the plan is persisted. */
  function Interrupted(n: Names, s: Settings, now: int): Verdict {
    Verdict(n.incident, 0, Detected, Allow, [Planned(n, n.command, n.resource, 1, s, now)], true)
  }

  function Refusing(n: Names): Verdict { Verdict(n.incident, 0, Detected, Block, [], false) }

  lemma InterruptedStores(w: World, n: Names, s: Settings, now: int)
    requires n.Valid() && Shows(w, n, Opening(n, now))
    ensures var v := Decide(w, Interrupted(n, s, now), now).world;
            && Shows(v, n, Opening(n, now).(commands := Approving(n, s, now).commands, keys := Approving(n, s, now).keys))
            && PlanCommands(w.actions, Interrupted(n, s, now).commands, n.incident, 1) && w.actions.Filed() && v.actions.Filed()
  {
    FreshDelivery(w, Interrupted(n, s, now), now);
    CreateOne(Planned(n, n.command, n.resource, 1, s, now));
  }

  lemma RefusingBlocks(w: World, n: Names, s: Settings, now: int)
    requires n.Valid() && w.actions.Filed() && w.incidents.items == map[n.incident := FirstIncident(n, now)]
    ensures var v := Decide(w, Refusing(n), now).world; InState(v, n.incident, Blocked) && v.actions == w.actions
  {
    FreshDelivery(w, Refusing(n), now);
    AdvanceReaches(w.incidents, n.incident, Blocked, now);
    CommitIs(w, Refusing(n), now, w.incidents.Advanced(n.incident, Blocked, now));
  }

  lemma StoredIsSibling(v: World, n: Names, s: Settings, now: int)
    requires v.actions.byId == Approving(n, s, now).commands
    ensures Lifecycle.HasSibling(v, n.incident, None)
  {
    assert n.command in v.actions.byId && v.actions.byId[n.command].state.Ready?;
  }

  lemma OpenReachable(n: Names, now: int, c: Runs.Config) returns (w: World)
    requires n.Valid()
    ensures Reachable(w, c) && Shows(w, n, Opening(n, now))
  {
    OpenedShows(n, now, c);
    StartReachable(c);
    w := Runs.Step(Nothing(), Runs.Opened(FirstIncident(n, now)), c);
    Reach(Nothing(), Runs.Opened(FirstIncident(n, now)), c, w);
  }

  lemma InterruptedReachable(w1: World, n: Names, now: int, c: Runs.Config) returns (w: World)
    requires n.Valid() && Reachable(w1, c) && Shows(w1, n, Opening(n, now))
    ensures Reachable(w, c) && w.actions.Filed() && w.actions.byId == Approving(n, c.settings, now).commands
    ensures w.incidents.items == map[n.incident := FirstIncident(n, now)]
  {
    InterruptedStores(w1, n, c.settings, now);
    w := Decide(w1, Interrupted(n, c.settings, now), now).world;
    Reach(w1, Runs.Decision(Interrupted(n, c.settings, now), now), c, w);
  }

  lemma RefusedReachable(w1: World, n: Names, now: int, c: Runs.Config) returns (w: World)
    requires n.Valid() && Reachable(w1, c) && w1.actions.Filed() && w1.actions.byId == Approving(n, c.settings, now).commands
    requires w1.incidents.items == map[n.incident := FirstIncident(n, now)]
    ensures Reachable(w, c) && InState(w, n.incident, Blocked) && Lifecycle.HasSibling(w, n.incident, None)
  {
    RefusingBlocks(w1, n, c.settings, now);
    w := Decide(w1, Refusing(n), now).world;
    Reach(w1, Runs.Decision(Refusing(n), now), c, w);
    StoredIsSibling(w, n, c.settings, now);
  }

  /** An authorisation whose process dies after it stored its command, delivered again and concluded with BLOCK: the
      incident is blocked, the command stays READY, and the restart is refused. */
  lemma BlockDecisionStrandsCommand(n: Names, now: int, c: Runs.Config, later: int) returns (w: World)
    requires n.Valid()
    ensures Reachable(w, c) && InState(w, n.incident, Blocked) && Lifecycle.HasSibling(w, n.incident, None)
    ensures !Lifecycle.Accepts(Lifecycle.Reconstructed(w, later))
  {
    w := OpenReachable(n, now, c);
    w := InterruptedReachable(w, n, now, c);
    w := RefusedReachable(w, n, now, c);
    ClosedIsRefused(w, n.incident, later);
  }
}
