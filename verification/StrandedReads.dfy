/** A read of the reconciler that found its resource, or found it on its way, stays PENDING on record for ever.  So once
    the incident of such a command is closed, by whatever step, every restart is refused; in particular after every
    mitigation that the reconciler itself completes. */
module StrandedReads {
  import opened Options
  import opened DurableCore
  import opened IncidentRepository
  import opened Execution
  import opened Reconciliation
  import opened Decisions
  import opened HandlerContinuity
  import opened ReconcilerContinuity
  import Surroundings = ReconciliationSurroundings
  import Segments = ExecutionSegments
  import Late = LateDecisions
  import Runs = ReconciliationRuns
  import Lifecycle = PlatformLifecycle

  // ---------------------------------------------------------------- what stays on record

  /** A read of the command is PENDING on record. */
  ghost predicate Observed(w: World, id: Id) {
    exists i :: 0 <= i < |RowsOf(w, id)| && RowsOf(w, id)[i].State().Pending?
  }

  lemma ObservedGrows(w: World, v: World, id: Id)
    requires Observed(w, id) && RowsOf(w, id) <= RowsOf(v, id)
    ensures Observed(v, id)
  {
    var i :| 0 <= i < |RowsOf(w, id)| && RowsOf(w, id)[i].State().Pending?;
    assert RowsOf(v, id)[i] == RowsOf(w, id)[i];
  }

  lemma ObservedPends(w: World, id: Id)
    requires id in w.actions.byId && Runs.OwnRows(w, id) && Observed(w, id)
    ensures Lifecycle.HasPendingRead(w, w.actions.byId[id].incidentId)
  {
    var i :| 0 <= i < |RowsOf(w, id)| && RowsOf(w, id)[i].State().Pending?;
    assert id in w.attempts && RowsOf(w, id)[i] in w.attempts[id];
  }

  /** A PENDING read of a closed incident is what a restart refuses. */
  lemma PendingIsRefused(w: World, incident: Id, later: int)
    requires Lifecycle.HasPendingRead(w, incident) && !Lifecycle.Active(w, incident)
    ensures !Lifecycle.Accepts(Lifecycle.Reconstructed(w, later))
  {
    Lifecycle.AcceptedBeforehand(w, later);
  }

  lemma {:induction false} ObservedStays(worlds: seq<World>, ts: seq<Runs.Tally>, g: Runs.Setting, m: nat, n: nat)
    requires Runs.TalliedRun(worlds, ts, g) && m <= n <= |ts| && Observed(worlds[m], g.id)
    ensures Observed(worlds[n], g.id)
    decreases n
  {
    if m < n {
      ObservedStays(worlds, ts, g, m, n - 1);
      assert Runs.Tallied(worlds[n - 1], worlds[n], ts[n - 1], g);
      ObservedGrows(worlds[n - 1], worlds[n], g.id);
    }
  }

  /** In every run among complete handlers, decisions, restarts, calls for other commands and operators: once a read of
      the command is PENDING it stays so, and whenever its incident is closed the restart is refused. */
  lemma PendingForGood(worlds: seq<World>, steps: seq<Surroundings.Step>, ts: seq<Runs.Tally>, at: seq<int>,
                       g: Runs.Setting, m: nat, n: nat, later: int)
    requires Surroundings.Run(worlds, steps, ts, at, g) && m <= n <= |steps| && Observed(worlds[m], g.id)
    ensures Observed(worlds[n], g.id) && g.id in worlds[n].actions.byId
    ensures !Lifecycle.Active(worlds[n], worlds[n].actions.byId[g.id].incidentId) ==>
              !Lifecycle.Accepts(Lifecycle.Reconstructed(worlds[n], later))
  {
    Surroundings.IsRun(worlds, steps, ts, at, g);
    Runs.RunIsTallied(worlds, Surroundings.StepsOf(steps), ts, at, g);
    Runs.RunInv(worlds, Surroundings.StepsOf(steps), ts, at, g, n);
    ObservedStays(worlds, ts, g, m, n);
    ObservedPends(worlds[n], g.id);
    if !Lifecycle.Active(worlds[n], worlds[n].actions.byId[g.id].incidentId) {
      PendingIsRefused(worlds[n], worlds[n].actions.byId[g.id].incidentId, later);
    }
  }

  // ---------------------------------------------------------------- what a call resolves

  /** Incident `x` was resolved on the way from `w` to `v`. */
  predicate Resolves(w: World, v: World, x: Id) { !InState(w, x, Resolved) && InState(v, x, Resolved) }

  lemma KeepsResolvesNothing(w: World, v: World, x: Id)
    requires Segments.Keeps(w, v)
    ensures !Resolves(w, v, x)
  {}

  lemma UnimprovedConcludes(w: World, a: ActionCommand, state: VerificationState, now: int, x: Id)
    requires w.actions.Filed() && a.incidentId in w.incidents.items && !state.Improved?
    ensures !Resolves(w, Conclude(w, a, state, now).world, x)
  {
    assert Rewrite(w, a.commandId, RollbackRequired, None, now).world.incidents == w.incidents;
    assert Rewrite(w, a.commandId, ReconciliationRequired, None, now).world.incidents == w.incidents;
    assert Conclude(w, a, state, now).world.incidents == w.incidents;
  }

  /** The resolution gate opens for the incident of the stored command, and for no other. */
  lemma ConcludeResolvesOwn(w: World, a: ActionCommand, state: VerificationState, now: int, x: Id)
    requires w.actions.Filed() && a.incidentId in w.incidents.items && Resolves(w, Conclude(w, a, state, now).world, x)
    ensures state.Improved? && a.commandId in w.actions.byId && x == w.actions.byId[a.commandId].incidentId
  {
    if !state.Improved? {
      UnimprovedConcludes(w, a, state, now, x);
    } else {
      var r := Rewrite(w, a.commandId, Success, None, now);
      if r.Ok? { GateResolvesOwn(r.world, r.value.incidentId, r.value.planVersion, now, x); }
    }
  }

  lemma GateResolvesOwn(w: World, incident: Id, plan: int, now: int, x: Id)
    requires Resolves(w, MaybeResolve(w, incident, plan, now), x)
    ensures x == incident
  {}

  lemma FinishReverifyResolvesOwn(w: World, a: ActionCommand, attempt: nat, v: VerifyAnswer, now: int, crash: Crash,
                                  x: Id)
    requires w.actions.Filed() && Resolves(w, FinishReverify(w, a, attempt, v, now, crash).world, x)
    ensures ReverificationOf(v).Improved? && a.commandId in w.actions.byId && x == w.actions.byId[a.commandId].incidentId
  {
    var w1 := SaveCheck(w, Reverify(a.commandId, attempt), a.incidentId, v, ReverificationOf(v), now);
    var w2 := WriteIncident(w1, a.incidentId, Some(ReverificationOf(v)), None, None, now);
    Segments.WriteKeeps(w1, a.incidentId, Some(ReverificationOf(v)), None, None, now);
    KeepsResolvesNothing(w1, w2.world, x);
    if w2.Ok? && !crash.AfterReverify? { ConcludeResolvesOwn(w2.world, a, ReverificationOf(v), now, x); }
  }

  lemma VerifyingResolvesOwn(w: World, a: ActionCommand, attempt: nat, ans: Runs.Answers, c: Runs.Course, before: nat,
                             x: Id)
    requires w.actions.Filed() && Resolves(w, Runs.Verifying(w, a, attempt, ans, c, before).world, x)
    ensures a.commandId in w.actions.byId && x == w.actions.byId[a.commandId].incidentId
    ensures Runs.Verifying(w, a, attempt, ans, c, before).world == FinishReverify(w, a, attempt, ans.verdict,
                                                                                  c.verified, c.crash).world
  {
    if !c.diesVerifying { FinishReverifyResolvesOwn(w, a, attempt, ans.verdict, c.verified, c.crash, x); }
  }

  /** A recorded read that awaits its verification is PENDING, and stays so through the verification. */
  lemma OpenStrands(w: World, w1: World, id: Id, ans: Runs.Answers, c: Runs.Course, rs: Retry, deadline: int, now: int,
                    x: Id)
    requires w1.actions.Filed() && Runs.Inv(w1, id, rs, deadline, now) && Runs.Open(w1, id)
    requires id in w.actions.byId && Runs.Steady(w, w1, id) && !Resolves(w, w1, x)
    requires Resolves(w, Runs.Verifying(w1, w1.actions.byId[id], |RowsOf(w1, id)|, ans, c, 1).world, x)
    ensures x == w.actions.byId[id].incidentId
    ensures Observed(Runs.Verifying(w1, w1.actions.byId[id], |RowsOf(w1, id)|, ans, c, 1).world, id)
  {
    var a, n := w1.actions.byId[id], |RowsOf(w1, id)|;
    assert RowsOf(w1, id)[n - 1].State().Pending?;
    VerifyingResolvesOwn(w1, a, n, ans, c, 1, x);
    Runs.FinishReverifySteady(w1, a, n, ans.verdict, c.verified, c.crash);
    ObservedGrows(w1, FinishReverify(w1, a, n, ans.verdict, c.verified, c.crash).world, id);
  }

  lemma ReadingIs(w: World, id: Id, ans: Runs.Answers, c: Runs.Course, r: Eff<Then>)
    requires id in w.actions.byId && r == FinishRead(w, w.actions.byId[id], |RowsOf(w, id)| + 1, ans.read, c.read, c.crash)
    ensures var o := Runs.Reading(w, w.actions.byId[id], |RowsOf(w, id)| + 1, ans, c).world;
            o == if r.Ok? && r.value.AwaitReverify? then Runs.Verifying(r.world, r.value.action, r.value.attempt, ans, c, 1).world else r.world
  {}

  /** A call that reads and then verifies resolves the incident of its command, with the read on record. */
  lemma ReadingStrands(w: World, id: Id, ans: Runs.Answers, c: Runs.Course, rs: Retry, deadline: int, before: int,
                       x: Id)
    requires w.actions.Filed() && Runs.Inv(w, id, rs, deadline, before) && before <= c.begun && c.Ordered()
    requires Runs.MayAttempt(w, id, rs, deadline, c.begun)
    requires Resolves(w, Runs.Reading(w, w.actions.byId[id], |RowsOf(w, id)| + 1, ans, c).world, x)
    ensures x == w.actions.byId[id].incidentId && Observed(Runs.Reading(w, w.actions.byId[id], |RowsOf(w, id)| + 1, ans, c).world, id)
  {
    var a := w.actions.byId[id];
    var r := FinishRead(w, a, |RowsOf(w, id)| + 1, ans.read, c.read, c.crash);
    Segments.FinishReadKeeps(w, a, |RowsOf(w, id)| + 1, ans.read, c.read, c.crash);
    KeepsResolvesNothing(w, r.world, x);
    ReadingIs(w, id, ans, c, r);
    if !c.crash.BeforePersist? {
      Runs.FinishReadAdds(w, id, ans.read, rs, deadline, before, c.begun, c.read, c.crash);
      OpenStrands(w, r.world, id, ans, c, rs, deadline, c.read, x);
    }
  }

  lemma UnavailableResolvesNothing(w: World, a: ActionCommand, attempt: nat, now: int, crash: Crash, x: Id)
    requires w.actions.Filed()
    ensures !Resolves(w, FinishReverify(w, a, attempt, Unavailable, now, crash).world, x)
  {
    InsufficientIs();
    if Resolves(w, FinishReverify(w, a, attempt, Unavailable, now, crash).world, x) {
      FinishReverifyResolvesOwn(w, a, attempt, Unavailable, now, crash, x);
    }
  }

  lemma InsufficientIs()
    ensures ReverificationOf(Unavailable) == InsufficientEvidence
  {}

  /** What a call does before its first await resolves nothing. */
  lemma ReverifyingResolvesNothing(w: World, a: ActionCommand, count: nat, s: Settings, now: int, crash: Crash, x: Id)
    requires w.actions.Filed()
    ensures !Resolves(w, Reverifying(w, a, count, s, now, crash).world, x)
  {
    var again := Unproven(w, a.commandId, count);
    var attempt := if again then count + 1 else count;
    var w1 := if again then SaveAttempt(w, a, attempt, ProviderAvailable, false, now) else w;
    UnavailableResolvesNothing(w1, a, attempt, now, crash, x);
  }

  lemma BeginReverifyResolvesNothing(w: World, a: ActionCommand, count: nat, s: Settings, now: int, crash: Crash, x: Id)
    requires w.actions.Filed()
    ensures !Resolves(w, BeginReverify(w, a, count, s, now, crash).world, x)
  {
    if Uncertain(a.state) {
      var r := Rewrite(w, a.commandId, Acknowledged, None, now);
      Segments.RewriteKeeps(w, a.commandId, Acknowledged, None, now);
      KeepsResolvesNothing(w, r.world, x);
      if r.Ok? { ReverifyingResolvesNothing(r.world, r.value, count, s, now, crash, x); }
    } else {
      ReverifyingResolvesNothing(w, a, count, s, now, crash, x);
    }
  }

  /** A call that goes on from a read already on record. */
  lemma ReadyResolvesOwn(w: World, id: Id, s: Settings, ans: Runs.Answers, c: Runs.Course, x: Id)
    requires w.actions.Filed() && Runs.Known(w, id)
    requires Resolves(w, Runs.Continue(BeginReverify(w, w.actions.byId[id], |RowsOf(w, id)|, s, c.begun, c.crash), ans, c).world, x)
    ensures x == w.actions.byId[id].incidentId
  {
    var a := w.actions.byId[id];
    var r := BeginReverify(w, a, |RowsOf(w, id)|, s, c.begun, c.crash);
    BeginReverifyResolvesNothing(w, a, |RowsOf(w, id)|, s, c.begun, c.crash, x);
    BeginReverifyTouches(w, a, |RowsOf(w, id)|, s, c.begun, c.crash);
    assert Anchored(w, r.world) && Follows(a, r.world.actions.byId[id]);
    BeginReverifyAwaits(w, a, |RowsOf(w, id)|, s, c.begun, c.crash);
    VerifyingResolvesOwn(r.world, r.value.action, r.value.attempt, ans, c, 0, x);
  }

  lemma ReverifyingAwaits(w: World, a: ActionCommand, count: nat, s: Settings, now: int, crash: Crash)
    ensures var r := Reverifying(w, a, count, s, now, crash); r.Ok? ==> !r.value.AwaitRead?
  {
    var again := Unproven(w, a.commandId, count);
    var attempt := if again then count + 1 else count;
    ReverifyStops(if again then SaveAttempt(w, a, attempt, ProviderAvailable, false, now) else w, a, attempt, now, crash);
  }

  lemma BeginReverifyAwaits(w: World, a: ActionCommand, count: nat, s: Settings, now: int, crash: Crash)
    ensures var r := BeginReverify(w, a, count, s, now, crash); r.Ok? ==> !r.value.AwaitRead?
  {
    var r := Rewrite(w, a.commandId, Acknowledged, None, now);
    if !Uncertain(a.state) {
      ReverifyingAwaits(w, a, count, s, now, crash);
    } else if r.Ok? {
      ReverifyingAwaits(r.world, r.value, count, s, now, crash);
    }
  }

  lemma DueResolvesOwn(w: World, id: Id, s: Settings, ans: Runs.Answers, c: Runs.Course, rs: Retry, deadline: int,
                       before: int, x: Id)
    requires w.actions.Filed() && Runs.Inv(w, id, rs, deadline, before) && before <= c.begun && c.Ordered()
    requires Runs.MayAttempt(w, id, rs, deadline, c.begun)
    requires Resolves(w, Runs.Continue(Act(w, w.actions.byId[id], Due, |RowsOf(w, id)|, s, c.begun, c.crash), ans, c).world, x)
    ensures x == w.actions.byId[id].incidentId
    ensures Observed(Runs.Continue(Act(w, w.actions.byId[id], Due, |RowsOf(w, id)|, s, c.begun, c.crash), ans, c).world, id)
  {
    var a := w.actions.byId[id];
    if !c.crash.BeforeRead? && CanRead(a, s) {
      ReadingStrands(w, id, ans, c, rs, deadline, before, x);
    } else if !c.crash.BeforeRead? {
      UnreadResolvesNothing(w, id, ans, c, if c.crash.BeforePersist? then NoCrash else c.crash, x);
    }
  }

  /** An attempt that is recorded without a read. */
  lemma UnreadResolvesNothing(w: World, id: Id, ans: Runs.Answers, c: Runs.Course, crash: Crash, x: Id)
    requires w.actions.Filed() && id in w.actions.byId
    ensures var r := FinishRead(w, w.actions.byId[id], |RowsOf(w, id)| + 1, NoAnswer, c.begun, crash);
            !Resolves(w, Runs.Continue(r, ans, c).world, x)
  {
    var a, n := w.actions.byId[id], |RowsOf(w, id)| + 1;
    var r := FinishRead(w, a, n, NoAnswer, c.begun, crash);
    Segments.FinishReadKeeps(w, a, n, NoAnswer, c.begun, crash);
    KeepsResolvesNothing(w, r.world, x);
    NoAnswerStops(w, a, n, c.begun, crash);
  }

  lemma NoAnswerStops(w: World, a: ActionCommand, attempt: nat, now: int, crash: Crash)
    ensures var r := FinishRead(w, a, attempt, NoAnswer, now, crash); r.Ok? ==> r.value.Stop?
  {}

  /** Every call that resolves an incident resolves the one of its command, and leaves a PENDING read of it on record.
      */
  lemma CallStrands(w: World, id: Id, s: Settings, rs: Retry, ans: Runs.Answers, c: Runs.Course, deadline: int,
                    before: int, x: Id)
    requires w.actions.Filed() && Runs.Inv(w, id, rs, deadline, before) && before <= c.begun && c.Ordered()
    requires Resolves(w, Runs.Call(w, id, s, rs, ans, c).world, x)
    ensures x == w.actions.byId[id].incidentId && Observed(Runs.Call(w, id, s, rs, ans, c).world, id)
  {
    var a := w.actions.byId[id];
    var rows := RowsOf(w, id);
    var status := WorkStatus(w, a, rs, c.begun);
    Runs.StatusFacts(w, id, rs, deadline, before, c.begun);
    Runs.CallSpends(w, id, s, rs, ans, c, deadline, before);
    if status.DeadlineReached? {
      Segments.SaveTerminalEscalationKeeps(w, a, Count(rows), c.begun);
      KeepsResolvesNothing(w, SaveTerminalEscalation(w, a, Count(rows), c.begun).world, x);
      SaveTerminalStops(w, a, Count(rows), c.begun);
      assert false;
    } else if status.ReadyForReverification? {
      ReadyResolvesOwn(w, id, s, ans, c, x);
      assert rows[|rows| - 1].State().Pending?;
      ObservedGrows(w, Runs.Call(w, id, s, rs, ans, c).world, id);
    } else {
      DueResolvesOwn(w, id, s, ans, c, rs, deadline, before, x);
    }
  }

  lemma SaveTerminalStops(w: World, a: ActionCommand, count: nat, now: int)
    ensures var r := SaveTerminalEscalation(w, a, count, now); r.Ok? ==> r.value.Stop?
  {}

  // ---------------------------------------------------------------- closed for good

  ghost predicate StayClosed(w: World, v: World) {
    forall x <- w.incidents.items :: Closed(w.incidents.items[x].state) ==> x in v.incidents.items && Closed(v.incidents.items[x].state)
  }

  lemma AnchoredStayClosed(w: World, v: World)
    requires Anchored(w, v)
    ensures StayClosed(w, v)
  {
    forall x | x in w.incidents.items && Closed(w.incidents.items[x].state)
      ensures x in v.incidents.items && Closed(v.incidents.items[x].state)
    {
      ClosedClimbs(w.incidents.items[x], v.incidents.items[x]);
    }
  }

  lemma ClosedClimbs(i: Incident, j: Incident)
    requires Climbs(i, j) && Closed(i.state)
    ensures Closed(j.state)
  {}

  lemma DecisionStaysClosed(w: World, v: Verdict, now: int)
    requires w.actions.Filed() && !v.decision.Undecided?
    ensures StayClosed(w, Decide(w, v, now).world)
  {
    if v.incidentId in w.incidents.items && !AlreadyDecided(w.incidents.items[v.incidentId])
        && !Stale(w.incidents.items[v.incidentId], v) {
      var w1 := if v.decision.Allow? then w.(actions := CreateAll(w.actions, v.commands)) else w;
      FreshDelivery(w, v, now);
      Late.CommitClimbs(w1, v, now);
      AnchoredStayClosed(w1, Commit(w1, v, now).world);
    }
  }

  lemma AsideStaysClosed(w: World, e: Surroundings.Surrounding, id: Id, s: Settings, rs: Retry)
    requires w.actions.Filed() && Surroundings.Admissible(w, e, id)
             && (e.Restarted? || e.Opened? || e.Operated? || e.Repaired? || e.Renewed?)
    ensures StayClosed(w, Surroundings.Happened(w, e, id, s, rs))
  {
    match e
    case Opened(i) =>
      Late.OpenAnchors(w, i);
      AnchoredStayClosed(w, w.(incidents := w.incidents.CreateOrGetActive(i).0));
    case Operated(incident, to, now) =>
      if w.incidents.Transition(incident, to, now).Done? {
        Late.TransitionAnchors(w, incident, to, now);
        AnchoredStayClosed(w, w.(incidents := w.incidents.Transition(incident, to, now).value));
      }
    case _ =>
  }

  lemma StepStaysClosed(w: World, v: World, step: Surroundings.Step, t: Runs.Tally, before: int, after: int,
                        g: Runs.Setting)
    requires Surroundings.Moves(w, v, step, t, before, after, g)
    ensures StayClosed(w, v)
  {
    match step
    case Called(ans, c) =>
      Surroundings.CallTouches(w, g.id, g.settings, g.retry, ans, c);
      AnchoredStayClosed(w, v);
    case Around(Handled(command, cap, freshId, t, fail, replies)) =>
      HandleContinues(w, command, g.settings, cap, freshId, t, fail, replies);
      AnchoredStayClosed(w, v);
    case Around(Decided(d, now)) => DecisionStaysClosed(w, d, now);
    case Around(Reconciled(other, ans, c)) =>
      Surroundings.CallTouches(w, other, g.settings, g.retry, ans, c);
      AnchoredStayClosed(w, v);
    case Around(e) => AsideStaysClosed(w, e, g.id, g.settings, g.retry);
  }

  lemma KeepsIncident(w: World, v: World, step: Runs.Step, t: Runs.Tally, before: int, after: int, g: Runs.Setting)
    requires Runs.Inv(w, g.id, g.retry, g.deadline, before) && Runs.Moves(w, v, step, t, before, after, g)
    ensures g.id in v.actions.byId && v.actions.byId[g.id].incidentId == w.actions.byId[g.id].incidentId
  {
    if step.Called? { Runs.CallSpends(w, g.id, g.settings, g.retry, step.ans, step.course, g.deadline, before); }
  }

  /** The command keeps its incident, and no closed incident is opened again. */
  ghost predicate Stays(w: World, v: World, id: Id) {
    && id in w.actions.byId && id in v.actions.byId && v.actions.byId[id].incidentId == w.actions.byId[id].incidentId
    && StayClosed(w, v)
  }

  lemma StaysTrans(u: World, v: World, w: World, id: Id)
    requires Stays(u, v, id) && Stays(v, w, id)
    ensures Stays(u, w, id)
  {}

  lemma StaysAt(worlds: seq<World>, steps: seq<Surroundings.Step>, ts: seq<Runs.Tally>, at: seq<int>, g: Runs.Setting,
                i: nat)
    requires Surroundings.Run(worlds, steps, ts, at, g) && i < |steps|
    ensures Stays(worlds[i], worlds[i + 1], g.id)
  {
    Surroundings.IsRun(worlds, steps, ts, at, g);
    Runs.RunInv(worlds, Surroundings.StepsOf(steps), ts, at, g, i);
    assert Runs.Moves(worlds[i], worlds[i + 1], Surroundings.StepsOf(steps)[i], ts[i], at[i], at[i + 1], g);
    KeepsIncident(worlds[i], worlds[i + 1], Surroundings.StepsOf(steps)[i], ts[i], at[i], at[i + 1], g);
    assert Surroundings.Moves(worlds[i], worlds[i + 1], steps[i], ts[i], at[i], at[i + 1], g);
    StepStaysClosed(worlds[i], worlds[i + 1], steps[i], ts[i], at[i], at[i + 1], g);
  }

  lemma {:induction false} StaysChain(worlds: seq<World>, id: Id, m: nat, n: nat)
    requires m < n < |worlds| && forall i, j :: 0 <= i < j < |worlds| && j == i + 1 ==> Stays(worlds[i], worlds[j], id)
    ensures Stays(worlds[m], worlds[n], id)
    decreases n
  {
    if m < n - 1 {
      StaysChain(worlds, id, m, n - 1);
      StaysTrans(worlds[m], worlds[n - 1], worlds[n], id);
    }
  }

  lemma StaysOn(worlds: seq<World>, steps: seq<Surroundings.Step>, ts: seq<Runs.Tally>, at: seq<int>, g: Runs.Setting,
                m: nat, n: nat)
    requires Surroundings.Run(worlds, steps, ts, at, g) && m < n <= |steps|
    ensures Stays(worlds[m], worlds[n], g.id)
  {
    forall i, j | 0 <= i < j < |worlds| && j == i + 1
      ensures Stays(worlds[i], worlds[j], g.id)
    {
      StaysAt(worlds, steps, ts, at, g, i);
    }
    StaysChain(worlds, g.id, m, n);
  }

  lemma StaysResolved(worlds: seq<World>, steps: seq<Surroundings.Step>, ts: seq<Runs.Tally>, at: seq<int>,
                      g: Runs.Setting, m: nat, n: nat, x: Id)
    requires Surroundings.Run(worlds, steps, ts, at, g) && m <= n <= |steps| && InState(worlds[m], x, Resolved)
    ensures !Lifecycle.Active(worlds[n], x)
  {
    if m < n { StaysOn(worlds, steps, ts, at, g, m, n); }
  }

  lemma StepStrands(w: World, v: World, step: Surroundings.Step, t: Runs.Tally, before: int, after: int,
                    g: Runs.Setting, x: Id)
    requires Runs.Inv(w, g.id, g.retry, g.deadline, before) && Surroundings.Moves(w, v, step, t, before, after, g)
    requires step.Called? && Resolves(w, v, x)
    ensures x == w.actions.byId[g.id].incidentId && Observed(v, g.id)
  {
    CallStrands(w, g.id, g.settings, g.retry, step.ans, step.course, g.deadline, before, x);
  }

  lemma StrandsAt(worlds: seq<World>, steps: seq<Surroundings.Step>, ts: seq<Runs.Tally>, at: seq<int>, g: Runs.Setting,
                  k: nat, x: Id)
    requires Surroundings.Run(worlds, steps, ts, at, g) && k < |steps| && steps[k].Called? && Resolves(worlds[k], worlds[k + 1], x)
    ensures g.id in worlds[k].actions.byId && x == worlds[k].actions.byId[g.id].incidentId && Observed(worlds[k + 1], g.id)
  {
    Surroundings.IsRun(worlds, steps, ts, at, g);
    Runs.RunInv(worlds, Surroundings.StepsOf(steps), ts, at, g, k);
    assert Surroundings.Moves(worlds[k], worlds[k + 1], steps[k], ts[k], at[k], at[k + 1], g);
    StepStrands(worlds[k], worlds[k + 1], steps[k], ts[k], at[k], at[k + 1], g, x);
  }

  /** What is known of a command whose call resolved incident `x`. */
  ghost predicate Stranded(w: World, id: Id, x: Id) {
    id in w.actions.byId && w.actions.byId[id].incidentId == x && !Lifecycle.Active(w, x)
  }

  lemma StrandedIsRefused(worlds: seq<World>, steps: seq<Surroundings.Step>, ts: seq<Runs.Tally>, at: seq<int>,
                          g: Runs.Setting,
                          m: nat, n: nat, x: Id, later: int)
    requires Surroundings.Run(worlds, steps, ts, at, g) && m <= n <= |steps| && Observed(worlds[m], g.id)
             && Stranded(worlds[n], g.id, x)
    ensures !Lifecycle.Accepts(Lifecycle.Reconstructed(worlds[n], later))
  {
    PendingForGood(worlds, steps, ts, at, g, m, n, later);
  }

  lemma StrandedFrom(worlds: seq<World>, steps: seq<Surroundings.Step>, ts: seq<Runs.Tally>, at: seq<int>,
                     g: Runs.Setting, k: nat, n: nat, x: Id)
    requires Surroundings.Run(worlds, steps, ts, at, g) && k < n <= |steps| && g.id in worlds[k].actions.byId
    requires x == worlds[k].actions.byId[g.id].incidentId && InState(worlds[k + 1], x, Resolved)
    ensures Stranded(worlds[n], g.id, x)
  {
    StaysOn(worlds, steps, ts, at, g, k, n);
    StaysResolved(worlds, steps, ts, at, g, k + 1, n, x);
  }

  lemma ResolvedIsStranded(worlds: seq<World>, steps: seq<Surroundings.Step>, ts: seq<Runs.Tally>, at: seq<int>,
                           g: Runs.Setting,
                           k: nat, n: nat, x: Id)
    requires Surroundings.Run(worlds, steps, ts, at, g) && k < n <= |steps| && steps[k].Called?
             && Resolves(worlds[k], worlds[k + 1], x)
    ensures Observed(worlds[k + 1], g.id) && Stranded(worlds[n], g.id, x)
  {
    StrandsAt(worlds, steps, ts, at, g, k, x);
    StrandedFrom(worlds, steps, ts, at, g, k, n, x);
  }

  /** Whenever a call of the reconciler resolves an incident, every restart from then on is refused: the read that found
      the resource is still PENDING, whatever has happened since. */
  lemma ReconcilerStrandsItsRead(worlds: seq<World>, steps: seq<Surroundings.Step>, ts: seq<Runs.Tally>, at: seq<int>,
                                 g: Runs.Setting,
                                 k: nat, n: nat, x: Id, later: int)
    requires Surroundings.Run(worlds, steps, ts, at, g) && k < n <= |steps| && steps[k].Called?
    requires !InState(worlds[k], x, Resolved) && InState(worlds[k + 1], x, Resolved)
    ensures Stranded(worlds[n], g.id, x) && !Lifecycle.Accepts(Lifecycle.Reconstructed(worlds[n], later))
  {
    ResolvedIsStranded(worlds, steps, ts, at, g, k, n, x);
    StrandedIsRefused(worlds, steps, ts, at, g, k + 1, n, x, later);
  }
}
