/** A decision that is delivered while its incident is already being mitigated either changes nothing, or stores
    commands of a plan that the incident never takes up and stops every further execution for the incident. */
module LateDecisions {
  import opened Options
  import opened DurableCore
  import opened IncidentRepository
  import RecoveryConsistency
  import opened Execution
  import opened Decisions
  import opened ExecutionSegments
  import opened HandlerContinuity
  import opened ReconcilerContinuity
  import Runs = ExecutionRuns

  // ---------------------------------------------------------------- runs whose answers reach those who wait for them

  /** The suspended handler that an answer resumes. */
  function AwaitedBy(e: Runs.Event): Option<Next> {
    match e
    case ExecuteAnswered(sent, _, _, _) => Some(AwaitExecute(sent))
    case ReconcileAnswered(a, _, _) => Some(AwaitReconcile(a))
    case VerifyAnswered(a, _, _, _, _, _) => Some(AwaitVerify(a))
    case RollbackAnswered(a, sent, _, _, _, _) => Some(AwaitRollback(a, sent))
    case RollbackVerified(a, accepted, _, _) => Some(AwaitVerifyRollback(a, accepted))
    case _ => None
  }

  predicate ByExecutor(e: Runs.Event) { e.Execute? || AwaitedBy(e).Some? }

  /** The segment of the executor that an event runs. */
  function Segment(w: World, e: Runs.Event, c: Runs.Config): Eff<Next>
    requires w.actions.Filed() && Runs.Admissible(w, e) && ByExecutor(e)
  {
    match e
    case Execute(id, cap, freshId, t, fail) => Start(w, id, c.settings, cap, freshId, t, fail)
    case ExecuteAnswered(sent, provider, now, fail) => AfterExecute(w, sent, provider, now, fail)
    case ReconcileAnswered(a, found, now) => AfterReconcile(w, a, found, now)
    case VerifyAnswered(a, v, cap, freshId, now, fail) => AfterVerify(w, a, v, c.settings, cap, freshId, now, fail)
    case RollbackAnswered(a, sent, provider, explicit, now, fail) => AfterRollback(w, a, sent, provider, explicit, now, fail)
    case RollbackVerified(a, accepted, verified, now) => AfterVerifyRollback(w, a, accepted, verified, now)
  }

  /** Where an event leaves its handler suspended. */
  ghost function Left(w: World, e: Runs.Event, c: Runs.Config): Option<Next>
    requires w.actions.Filed() && Runs.Admissible(w, e)
  {
    if ByExecutor(e) && Segment(w, e, c).Ok? then Some(Segment(w, e, c).value) else None
  }

  /** A run in which every answer resumes a handler that an earlier event left waiting for it, once or more often;
      `left[k]` is where event `k` leaves its handler. */
  ghost predicate LinkedRun(worlds: seq<World>, events: seq<Runs.Event>, left: seq<Option<Next>>, c: Runs.Config) {
    && Runs.Run(worlds, events, c) && |left| == |events|
    && (forall k :: 0 <= k < |events| ==> left[k] == Left(worlds[k], events[k], c))
    && forall k :: 0 <= k < |events| && AwaitedBy(events[k]).Some? ==> exists m: nat :: m < k && left[m] == AwaitedBy(events[k])
  }

  // ---------------------------------------------------------------- every step only moves on

  /** The snapshots of a suspended handler, some time later. */
  predicate HonestIn(w: World, next: Next) {
    match next
    case Returned => true
    case AwaitExecute(a) => Honest(w, a) && a.state.Sent?
    case AwaitReconcile(a) => Honest(w, a) && (a.state.OutcomeUnknown? || a.state.ReconciliationRequired?)
    case AwaitVerify(a) => Honest(w, a) && a.state.Acknowledged?
    case AwaitRollback(_, b) => Honest(w, b) && b.state.Sent?
    case AwaitVerifyRollback(_, b) => Honest(w, b) && b.state.Acknowledged?
  }

  lemma StaysHonest(w: World, v: World, next: Next)
    requires Suspends(w, next) && Anchored(w, v)
    ensures HonestIn(v, next)
  {}

  lemma SegmentAnchors(w: World, e: Runs.Event, c: Runs.Config)
    requires w.actions.Filed() && Runs.Admissible(w, e) && ByExecutor(e)
    requires AwaitedBy(e).Some? ==> HonestIn(w, AwaitedBy(e).value)
    ensures Proceeds(w, Segment(w, e, c))
  {
    match e
    case Execute(id, cap, freshId, t, fail) => StartProceeds(w, id, c.settings, cap, freshId, t, fail);
    case ExecuteAnswered(sent, provider, now, fail) => AfterExecuteProceeds(w, sent, provider, now, fail);
    case ReconcileAnswered(a, found, now) => AfterReconcileProceeds(w, a, found, now);
    case VerifyAnswered(a, v, cap, freshId, now, fail) => AfterVerifyProceeds(w, a, v, c.settings, cap, freshId, now, fail);
    case RollbackAnswered(a, sent, provider, explicit, now, fail) => AfterRollbackProceeds(w, a, sent, provider, explicit, now, fail);
    case RollbackVerified(a, accepted, verified, now) => AfterVerifyRollbackProceeds(w, a, accepted, verified, now);
  }

  lemma SegmentIsStep(w: World, e: Runs.Event, c: Runs.Config)
    requires w.actions.Filed() && Runs.Admissible(w, e) && ByExecutor(e)
    ensures Runs.Step(w, e, c) == Segment(w, e, c).world
  {}

  /** Fresh identities, all different. */
  predicate FreshCommands(s: ActionStore, cmds: seq<ActionCommand>) {
    (forall c <- cmds :: c.commandId !in s.byId) && forall i, j :: 0 <= i < j < |cmds| ==> cmds[i].commandId != cmds[j].commandId
  }

  lemma {:induction false} CreateAllKeeps(s: ActionStore, cmds: seq<ActionCommand>)
    requires s.Filed() && FreshCommands(s, cmds)
    ensures forall id <- s.byId :: id in CreateAll(s, cmds).byId && CreateAll(s, cmds).byId[id] == s.byId[id]
    ensures forall id <- CreateAll(s, cmds).byId :: id in s.byId || exists k :: 0 <= k < |cmds| && cmds[k].commandId == id
  {
    if cmds != [] {
      var n := |cmds| - 1;
      assert cmds[n] in cmds;
      forall c | c in cmds[..n]
        ensures c in cmds
      {}
      CreateAllKeeps(s, cmds[..n]);
      CreateOneKeeps(s, CreateAll(s, cmds[..n]), cmds, n);
    }
  }

  /** One more command of the loop, under an identity that is not stored yet. */
  lemma CreateOneKeeps(s: ActionStore, t: ActionStore, cmds: seq<ActionCommand>, n: nat)
    requires t.Filed() && n < |cmds| && cmds[n].commandId !in s.byId
    requires forall id <- s.byId :: id in t.byId && t.byId[id] == s.byId[id]
    requires forall id <- t.byId :: id in s.byId || exists k :: 0 <= k < n && cmds[k].commandId == id
    ensures var u := t.CreateOrGet(cmds[n]).0;
            && (forall id <- s.byId :: id in u.byId && u.byId[id] == s.byId[id])
            && (forall id <- u.byId :: id in s.byId || exists k :: 0 <= k < n + 1 && cmds[k].commandId == id)
  {
    var u := t.CreateOrGet(cmds[n]).0;
    forall id | id in u.byId && id !in s.byId
      ensures exists k :: 0 <= k < n + 1 && cmds[k].commandId == id
    {
      if id in t.byId {
        var k :| 0 <= k < n && cmds[k].commandId == id;
      } else {
        assert id == cmds[n].commandId;
      }
    }
  }

  /** A command that the creation loop stored. */
  ghost predicate NewlyStored(s: ActionStore, t: ActionStore, cmds: seq<ActionCommand>) {
    exists id :: id in t.byId && id !in s.byId && t.byId[id] in cmds
  }

  lemma CreateOneMore(s: ActionStore, t: ActionStore, cmds: seq<ActionCommand>, c: ActionCommand)
    requires t.Filed() && NewlyStored(s, t, cmds) && c.commandId !in t.byId
    ensures NewlyStored(s, t.CreateOrGet(c).0, cmds + [c])
  {
    var id :| id in t.byId && id !in s.byId && t.byId[id] in cmds;
    assert t.CreateOrGet(c).0.byId[id] in cmds + [c];
  }

  lemma CreateFirst(s: ActionStore, cmds: seq<ActionCommand>, c: ActionCommand)
    requires s.Filed() && c.commandId !in s.byId && s.CreateOrGet(c).0 != s
    ensures NewlyStored(s, s.CreateOrGet(c).0, cmds + [c])
  {
    assert s.CreateOrGet(c).0.byId[c.commandId] in cmds + [c];
  }

  /** The last command of the loop, after those before it. */
  lemma LastStores(s: ActionStore, t: ActionStore, before: seq<ActionCommand>, c: ActionCommand)
    requires s.Filed() && t.Filed() && c.commandId !in t.byId && (t == s || NewlyStored(s, t, before)) && t.CreateOrGet(c).0 != s
    ensures NewlyStored(s, t.CreateOrGet(c).0, before + [c])
  {
    if t == s { CreateFirst(s, before, c); } else { CreateOneMore(s, t, before, c); }
  }

  lemma LastIsFresh(s: ActionStore, cmds: seq<ActionCommand>)
    requires s.Filed() && FreshCommands(s, cmds) && cmds != []
    ensures FreshCommands(s, cmds[..|cmds| - 1]) && cmds[|cmds| - 1].commandId !in CreateAll(s, cmds[..|cmds| - 1]).byId
  {
    var n := |cmds| - 1;
    assert cmds[n] in cmds;
    forall c | c in cmds[..n]
      ensures c in cmds
    {}
    CreateAllKeeps(s, cmds[..n]);
  }

  lemma {:induction false} CreateAllStores(s: ActionStore, cmds: seq<ActionCommand>)
    requires s.Filed() && FreshCommands(s, cmds)
    ensures CreateAll(s, cmds) == s || NewlyStored(s, CreateAll(s, cmds), cmds)
  {
    if cmds != [] {
      var n := |cmds| - 1;
      LastIsFresh(s, cmds);
      CreateAllStores(s, cmds[..n]);
      assert cmds == cmds[..n] + [cmds[n]];
      if CreateAll(s, cmds) != s { LastStores(s, CreateAll(s, cmds[..n]), cmds[..n], cmds[n]); }
    }
  }

  lemma CommitClimbs(w: World, v: Verdict, now: int)
    requires !v.decision.Undecided? && v.incidentId in w.incidents.items
    ensures Anchored(w, Commit(w, v, now).world)
  {
    var i := w.incidents.items[v.incidentId];
    if CanAdvance(i.state, TargetOf(v.decision)) {
      AdvanceReaches(w.incidents, v.incidentId, TargetOf(v.decision), now);
      CommitOne(w, Commit(w, v, now).world, v.incidentId, TargetOf(v.decision));
    }
  }

  lemma CommitOne(w: World, v: World, id: Id, target: IncidentState)
    requires v.actions == w.actions && id in w.incidents.items && id in v.incidents.items
             && CanAdvance(w.incidents.items[id].state, target)
    requires v.incidents.items[id].state == target && IsDecisionTarget(target)
    requires forall other <- w.incidents.items :: other != id ==> other in v.incidents.items && v.incidents.items[other] == w.incidents.items[other]
    ensures Anchored(w, v)
  {}

  lemma CreatedAnchors(w: World, cmds: seq<ActionCommand>, incident: Id, plan: int)
    requires w.actions.Filed() && PlanCommands(w.actions, cmds, incident, plan)
    ensures Anchored(w, w.(actions := CreateAll(w.actions, cmds)))
  {
    CreateAllKeeps(w.actions, cmds);
  }

  lemma DecideAnchors(w: World, v: Verdict, now: int)
    requires w.actions.Filed() && !v.decision.Undecided?
    requires v.incidentId in w.incidents.items ==>
               PlanCommands(w.actions, v.commands, v.incidentId, w.incidents.items[v.incidentId].planVersion + 1)
    ensures Anchored(w, Decide(w, v, now).world)
  {
    AsideContinues(w, w);
    if v.incidentId in w.incidents.items && !AlreadyDecided(w.incidents.items[v.incidentId])
        && !Stale(w.incidents.items[v.incidentId], v) {
      var w1 := if v.decision.Allow? then w.(actions := CreateAll(w.actions, v.commands)) else w;
      FreshDelivery(w, v, now);
      CreatedAnchors(w, v.commands, v.incidentId, w.incidents.items[v.incidentId].planVersion + 1);
      CommitClimbs(w1, v, now);
      AnchoredTrans(w, w1, Commit(w1, v, now).world);
    }
  }

  lemma TransitionAnchors(w: World, id: Id, to: IncidentState, now: int)
    requires w.incidents.Transition(id, to, now).Done?
    ensures Anchored(w, w.(incidents := w.incidents.Transition(id, to, now).value))
  {
    TransitionsClimb(w.incidents.items[id].state, to);
  }

  lemma RestartAnchors(w: World)
    ensures Anchored(w, w.(actions := w.actions.MarkRestartUnknown()))
  {}

  lemma RepairAnchors(w: World, incident: Id, now: int)
    requires incident in w.incidents.items && incident in w.recovery
    ensures Anchored(w, w.(incidents := w.incidents.(items := w.incidents.items[incident :=
              RecoveryConsistency.Repaired(w.incidents.items[incident], w.recovery[incident].state, now)])))
  {}

  lemma OpenAnchors(w: World, i: Incident)
    requires i.incidentId !in w.incidents.items
    ensures Anchored(w, w.(incidents := w.incidents.CreateOrGetActive(i).0))
  {}

  lemma ReconcilerAnchors(w: World, e: Runs.Event, c: Runs.Config)
    requires w.actions.Filed() && Runs.Admissible(w, e) && (e.Reconcile? || e.ReadAnswered? || e.ReverifyAnswered?)
    ensures Anchored(w, Runs.Step(w, e, c))
  {
    match e
    case Reconcile(id, now, crash) => BeginTouches(w, id, c.settings, c.retry, now, crash);
    case ReadAnswered(a, attempt, read, now, crash) => FinishReadTouches(w, a, attempt, read, now, crash);
    case ReverifyAnswered(a, attempt, v, now, crash) => FinishReverifyTouches(w, a, attempt, v, now, crash);
  }

  lemma OtherStepAnchors(w: World, e: Runs.Event, c: Runs.Config)
    requires w.actions.Filed() && Runs.Admissible(w, e) && !ByExecutor(e)
    ensures Anchored(w, Runs.Step(w, e, c))
  {
    AsideContinues(w, w);
    match e
    case Reconcile(_, _, _) => ReconcilerAnchors(w, e, c);
    case ReadAnswered(_, _, _, _, _) => ReconcilerAnchors(w, e, c);
    case ReverifyAnswered(_, _, _, _, _) => ReconcilerAnchors(w, e, c);
    case Decision(v, now) => DecideAnchors(w, v, now);
    case Restarted => RestartAnchors(w);
    case ProjectionRepaired(incident, now) =>
      if incident in w.incidents.items && incident in w.recovery { RepairAnchors(w, incident, now); }
    case Opened(i) => OpenAnchors(w, i);
    case Operated(id, to, now) => if w.incidents.Transition(id, to, now).Done? { TransitionAnchors(w, id, to, now); }
    case Renewed(leases, trust) => AsideContinues(w, w.(leases := leases, trust := trust));
  }

  /** A step moves on, and what it leaves suspended is stored. */
  ghost predicate StepHolds(w: World, v: World, left: Option<Next>) {
    Anchored(w, v) && (left.Some? ==> Suspends(v, left.value))
  }

  lemma StepAt(w: World, e: Runs.Event, c: Runs.Config)
    requires w.actions.Filed() && Runs.Admissible(w, e) && (AwaitedBy(e).Some? ==> HonestIn(w, AwaitedBy(e).value))
    ensures StepHolds(w, Runs.Step(w, e, c), Left(w, e, c))
  {
    if ByExecutor(e) {
      SegmentAnchors(w, e, c);
      SegmentIsStep(w, e, c);
    } else {
      OtherStepAnchors(w, e, c);
    }
  }

  lemma AnchoredRefl(w: World)
    ensures Anchored(w, w)
  {}

  ghost predicate HeldUpTo(worlds: seq<World>, left: seq<Option<Next>>, n: nat)
    requires n <= |left| < |worlds|
  {
    n == 0 || (HeldUpTo(worlds, left, n - 1) && StepHolds(worlds[n - 1], worlds[n], left[n - 1]))
  }

  lemma {:induction false} AnchoredChain(worlds: seq<World>, left: seq<Option<Next>>, m: nat, n: nat)
    requires m <= n <= |left| < |worlds| && HeldUpTo(worlds, left, n)
    ensures Anchored(worlds[m], worlds[n])
    decreases n
  {
    if m == n {
      AnchoredRefl(worlds[n]);
    } else {
      AnchoredChain(worlds, left, m, n - 1);
      AnchoredTrans(worlds[m], worlds[n - 1], worlds[n]);
    }
  }

  lemma {:induction false} HeldSuspends(worlds: seq<World>, left: seq<Option<Next>>, n: nat, m: nat)
    requires m < n <= |left| < |worlds| && HeldUpTo(worlds, left, n) && left[m].Some?
    ensures Suspends(worlds[m + 1], left[m].value)
    decreases n
  {
    if m < n - 1 { HeldSuspends(worlds, left, n - 1, m); }
  }

  /** What the handler waits with is honest when its answer comes. */
  lemma AnswerIsHonest(worlds: seq<World>, left: seq<Option<Next>>, m: nat, n: nat)
    requires m < n <= |left| < |worlds| && left[m].Some? && HeldUpTo(worlds, left, n)
    ensures HonestIn(worlds[n], left[m].value)
  {
    HeldSuspends(worlds, left, n, m);
    AnchoredChain(worlds, left, m + 1, n);
    StaysHonest(worlds[m + 1], worlds[n], left[m].value);
  }

  /** The facts of one event of a linked run. */
  lemma LinkedAt(worlds: seq<World>, events: seq<Runs.Event>, left: seq<Option<Next>>, c: Runs.Config, n: nat)
    returns (m: nat)
    requires LinkedRun(worlds, events, left, c) && n < |events|
    ensures worlds[n].actions.Filed() && Runs.Admissible(worlds[n], events[n])
    ensures worlds[n + 1] == Runs.Step(worlds[n], events[n], c) && left[n] == Left(worlds[n], events[n], c)
    ensures AwaitedBy(events[n]).Some? ==> m < n && left[m] == AwaitedBy(events[n])
  {
    m := 0;
    if AwaitedBy(events[n]).Some? { m :| m < n && left[m] == AwaitedBy(events[n]); }
  }

  lemma {:induction false} LinkedSteps(worlds: seq<World>, events: seq<Runs.Event>, left: seq<Option<Next>>,
                                       c: Runs.Config, n: nat)
    requires LinkedRun(worlds, events, left, c) && n <= |events|
    ensures HeldUpTo(worlds, left, n)
  {
    if n > 0 {
      var i := n - 1;
      LinkedSteps(worlds, events, left, c, i);
      LinkedHolds(worlds, events, left, c, i);
    }
  }

  lemma LinkedHolds(worlds: seq<World>, events: seq<Runs.Event>, left: seq<Option<Next>>, c: Runs.Config, i: nat)
    requires LinkedRun(worlds, events, left, c) && i < |events| && HeldUpTo(worlds, left, i)
    ensures StepHolds(worlds[i], worlds[i + 1], left[i])
  {
    var m := LinkedAt(worlds, events, left, c, i);
    if AwaitedBy(events[i]).Some? { AnswerIsHonest(worlds, left, m, i); }
    StepAt(worlds[i], events[i], c);
  }

  /** Every later world of a linked run continues every earlier one. */
  lemma MovesOn(worlds: seq<World>, events: seq<Runs.Event>, left: seq<Option<Next>>, c: Runs.Config, m: nat, n: nat)
    requires LinkedRun(worlds, events, left, c) && m <= n <= |events|
    ensures Anchored(worlds[m], worlds[n])
  {
    LinkedSteps(worlds, events, left, c, n);
    AnchoredChain(worlds, left, m, n);
  }

  // ---------------------------------------------------------------- an overtaken plan

  /** The incident is past the decision, and a command of a newer plan than its own is stored for it, unless it has left
      for an operator. */
  ghost predicate Overtaken(w: World, incident: Id) {
    && incident in w.incidents.items && Rank(Mitigating) <= Rank(w.incidents.items[incident].state)
    && (|| Rank(IncidentState.Escalated) <= Rank(w.incidents.items[incident].state)
        || exists id <- w.actions.byId ::
             w.actions.byId[id].incidentId == incident && w.incidents.items[incident].planVersion < w.actions.byId[id].planVersion)
  }

  lemma StaysOvertaken(w: World, v: World, incident: Id)
    requires Overtaken(w, incident) && Anchored(w, v)
    ensures Overtaken(v, incident)
  {
    assert Climbs(w.incidents.items[incident], v.incidents.items[incident]);
    if Rank(v.incidents.items[incident].state) < Rank(IncidentState.Escalated) {
      var id :| id in w.actions.byId && w.actions.byId[id].incidentId == incident
          && w.incidents.items[incident].planVersion < w.actions.byId[id].planVersion;
      assert Follows(w.actions.byId[id], v.actions.byId[id]);
    }
  }

  lemma OvertakenIsNotAuthorized(w: World, incident: Id, id: Id, s: Settings, t: Instants)
    requires Overtaken(w, incident) && Authorized(w, id, s, t)
    ensures w.actions.byId[id].incidentId != incident
  {}

  lemma CallsGrow(worlds: seq<World>, events: seq<Runs.Event>, c: Runs.Config, m: nat, n: nat)
    requires Runs.EarnedRun(worlds, events, c) && m <= n <= |events|
    ensures worlds[m].journal.calls <= worlds[n].journal.calls
  {
    forall i, j | 0 <= i < j < |worlds| && j == i + 1
      ensures worlds[i].journal.calls <= worlds[j].journal.calls
    {
      Runs.StepCallsGrow(worlds[i], worlds[j], events[i], c);
    }
    GrowsAlong(worlds, m, n);
  }

  lemma {:induction false} GrowsAlong(worlds: seq<World>, m: nat, n: nat)
    requires m <= n < |worlds|
    requires forall i, j :: 0 <= i < j < |worlds| && j == i + 1 ==> worlds[i].journal.calls <= worlds[j].journal.calls
    ensures worlds[m].journal.calls <= worlds[n].journal.calls
    decreases n
  {
    if m < n { GrowsAlong(worlds, m, n - 1); }
  }

  /** Once a newer plan has commands, nothing more is executed for the incident: not those commands, and not the ones of
      its own plan that are still READY. */
  lemma OvertakenStops(worlds: seq<World>, events: seq<Runs.Event>, left: seq<Option<Next>>, c: Runs.Config, k: nat,
                       n: nat, incident: Id, x: nat)
    requires LinkedRun(worlds, events, left, c) && k <= n <= |events| && Overtaken(worlds[k], incident)
    requires |worlds[k].journal.calls| <= x < |worlds[n].journal.calls| && worlds[n].journal.calls[x].ExecuteCall?
    ensures var id := worlds[n].journal.calls[x].commandId;
            id in worlds[n].actions.byId && worlds[n].actions.byId[id].incidentId != incident
  {
    Runs.RunIsEarned(worlds, events, c);
    Runs.AuthorityAtEveryCall(worlds, events, c, n, x);
    var j: nat :| j < n && Runs.CalledAt(worlds, events, c, j, x);
    if j < k { CallsGrow(worlds, events, c, j + 1, k); }
    CallsGrow(worlds, events, c, j + 1, n);
    MovesOn(worlds, events, left, c, k, j + 1);
    StaysOvertaken(worlds[k], worlds[j + 1], incident);
    OvertakenIsNotAuthorized(worlds[j + 1], incident, events[j].id, c.settings, events[j].t);
    MovesOn(worlds, events, left, c, j + 1, n);
    assert Follows(worlds[j + 1].actions.byId[events[j].id], worlds[n].actions.byId[events[j].id]);
  }

  /** The incident for which provider call `x` was made. */
  function ExecutedFor(w: World, x: int): Option<Id>
    requires 0 <= x < |w.journal.calls|
  {
    var id := w.journal.calls[x].commandId;
    if id in w.actions.byId then Some(w.actions.byId[id].incidentId) else None
  }

  // ---------------------------------------------------------------- the late decision

  lemma PlanIsFresh(s: ActionStore, cmds: seq<ActionCommand>, incident: Id, plan: int)
    requires PlanCommands(s, cmds, incident, plan)
    ensures FreshCommands(s, cmds)
  {}

  lemma LateDeliveryOvertakes(w: World, v: Verdict, now: int)
    requires w.actions.Filed() && !v.decision.Undecided? && v.incidentId in w.incidents.items
    requires w.incidents.items[v.incidentId].state.Mitigating? || w.incidents.items[v.incidentId].state.Verifying?
    requires PlanCommands(w.actions, v.commands, v.incidentId, w.incidents.items[v.incidentId].planVersion + 1)
    requires Decide(w, v, now).world != w
    ensures v.decision.Allow? && Decide(w, v, now).world == w.(actions := CreateAll(w.actions, v.commands))
    ensures Overtaken(Decide(w, v, now).world, v.incidentId)
  {
    var u := Decide(w, v, now).world;
    LateDeliveryIs(w, v, now);
    StoredOvertakes(w, v.commands, v.incidentId);
    assert u == w.(actions := CreateAll(w.actions, v.commands));
  }

  lemma StoredOvertakes(w: World, cmds: seq<ActionCommand>, incident: Id)
    requires w.actions.Filed() && incident in w.incidents.items && Rank(Mitigating) <= Rank(w.incidents.items[incident].state)
    requires PlanCommands(w.actions, cmds, incident, w.incidents.items[incident].planVersion + 1)
             && CreateAll(w.actions, cmds) != w.actions
    ensures Overtaken(w.(actions := CreateAll(w.actions, cmds)), incident)
  {
    PlanIsFresh(w.actions, cmds, incident, w.incidents.items[incident].planVersion + 1);
    CreateAllStores(w.actions, cmds);
    NewlyStoredOvertakes(w, w.(actions := CreateAll(w.actions, cmds)), cmds, incident);
  }

  /** Past the decision a delivery that changes anything is an authorisation, and only stores its commands. */
  lemma LateDeliveryIs(w: World, v: Verdict, now: int)
    requires w.actions.Filed() && !v.decision.Undecided? && v.incidentId in w.incidents.items
    requires w.incidents.items[v.incidentId].state.Mitigating? || w.incidents.items[v.incidentId].state.Verifying?
    requires Decide(w, v, now).world != w
    ensures v.decision.Allow? && Decide(w, v, now).world == w.(actions := CreateAll(w.actions, v.commands))
    ensures CreateAll(w.actions, v.commands) != w.actions
  {
    DeliveryChangesNothingExactly(w, v, now);
    FreshDelivery(w, v, now);
    CommitMoves(if v.decision.Allow? then w.(actions := CreateAll(w.actions, v.commands)) else w, v, now);
  }

  lemma NewlyStoredOvertakes(w: World, u: World, cmds: seq<ActionCommand>, incident: Id)
    requires u == w.(actions := u.actions) && NewlyStored(w.actions, u.actions, cmds) && incident in w.incidents.items
    requires Rank(Mitigating) <= Rank(w.incidents.items[incident].state)
    requires PlanCommands(w.actions, cmds, incident, w.incidents.items[incident].planVersion + 1)
    ensures Overtaken(u, incident)
  {
    var id :| id in u.actions.byId && id !in w.actions.byId && u.actions.byId[id] in cmds;
    assert u.incidents.items[incident].planVersion < u.actions.byId[id].planVersion;
  }

  /** In every run: a decision delivered while its incident is being mitigated or verified changes nothing exactly
      when it is a known one, stale, or plans nothing new; otherwise it only stores commands, and from then on the
      provider is never told to execute anything for that incident. */
  lemma LateDecisionStops(worlds: seq<World>, events: seq<Runs.Event>, left: seq<Option<Next>>, c: Runs.Config, k: nat,
                          n: nat)
    requires LinkedRun(worlds, events, left, c) && k < n <= |events| && events[k].Decision?
    requires var id := events[k].reached.incidentId; InState(worlds[k], id, Mitigating) || InState(worlds[k], id, Verifying)
    ensures worlds[k + 1] == worlds[k] <==> ChangesNothing(worlds[k], events[k].reached)
    ensures worlds[k + 1] == worlds[k] || worlds[k + 1] == worlds[k].(actions := CreateAll(worlds[k].actions, events[k].reached.commands))
    ensures worlds[k + 1] != worlds[k] ==>
              forall x :: |worlds[k].journal.calls| <= x < |worlds[n].journal.calls| && worlds[n].journal.calls[x].ExecuteCall? ==>
                ExecutedFor(worlds[n], x) != Some(events[k].reached.incidentId)
  {
    var v := events[k].reached;
    var m := LinkedAt(worlds, events, left, c, k);
    DeliveryChangesNothingExactly(worlds[k], v, events[k].now);
    if worlds[k + 1] != worlds[k] {
      LateDeliveryOvertakes(worlds[k], v, events[k].now);
      forall x | |worlds[k].journal.calls| <= x < |worlds[n].journal.calls| && worlds[n].journal.calls[x].ExecuteCall?
        ensures ExecutedFor(worlds[n], x) != Some(v.incidentId)
      {
        OvertakenStops(worlds, events, left, c, k + 1, n, v.incidentId, x);
      }
    }
  }
}
