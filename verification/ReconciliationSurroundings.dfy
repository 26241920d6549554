/** The reconciler among everything else that happens: complete handlers of the executor, decisions, restarts, calls for
    other commands, operators and lease changes each leave a command alone between two calls for it, so the bounds of
    `ReconciliationRuns` hold in every such run. */
module ReconciliationSurroundings {
  import opened Options
  import opened DurableCore
  import opened IncidentRepository
  import RecoveryConsistency
  import opened Execution
  import opened Reconciliation
  import opened Decisions
  import opened HandlerContinuity
  import opened ReconcilerContinuity
  import Runs = ReconciliationRuns

  // ---------------------------------------------------------------- one surrounding at a time

  /** The command is the same, its records are the same, and no incident was forgotten. */
  lemma UntouchedIsLeftAlone(w: World, v: World, id: Id, x: Id)
    requires Runs.Known(w, id) && Touches(w, v, x) && id != x
    ensures Runs.LeavesAlone(w, v, id)
  {
    forall k: nat
      ensures Reverify(id, k) in v.checks <==> Reverify(id, k) in w.checks
      ensures Reverify(id, k) in w.checks ==> v.checks[Reverify(id, k)] == w.checks[Reverify(id, k)]
    {
      assert Reverify(id, k).commandId != x;
    }
  }

  lemma ContinuedIsLeftAlone(w: World, v: World, id: Id)
    requires Runs.Known(w, id) && Continues(w, v)
    ensures Runs.LeavesAlone(w, v, id)
  {
    var c, d := w.actions.byId[id], v.actions.byId[id];
    assert Follows(c, d) && Holds(c, d);
    forall k: nat
      ensures Reverify(id, k) in v.checks <==> Reverify(id, k) in w.checks
      ensures Reverify(id, k) in w.checks ==> v.checks[Reverify(id, k)] == w.checks[Reverify(id, k)]
    {
      assert Reverify(id, k).Reverify?;
    }
  }

  /** A complete `execute_ready_action`, for this command or any other, leaves alone what the reconciler relies on. */
  lemma HandlerLeavesAlone(w: World, id: Id, handled: Id, s: Settings, cap: Capability, freshId: Id, t: Instants,
                           fail: Option<Failpoint>, ys: seq<Reply>)
    requires Runs.Known(w, id) && w.actions.Filed() && freshId !in w.actions.byId
    ensures Runs.LeavesAlone(w, Handle(w, handled, s, cap, freshId, t, fail, ys), id)
    ensures Handle(w, handled, s, cap, freshId, t, fail, ys).actions.Filed()
  {
    HandleContinues(w, handled, s, cap, freshId, t, fail, ys);
    ContinuedIsLeftAlone(w, Handle(w, handled, s, cap, freshId, t, fail, ys), id);
  }

  lemma {:induction false} CreateAllKeepsOld(s: ActionStore, cmds: seq<ActionCommand>, id: Id)
    requires s.Filed() && id in s.byId && forall c <- cmds :: c.commandId != id
    ensures id in CreateAll(s, cmds).byId && CreateAll(s, cmds).byId[id] == s.byId[id]
  {
    if cmds != [] { CreateAllKeepsOld(s, cmds[..|cmds| - 1], id); }
  }

  lemma CommitLeaves(w: World, v: Verdict, now: int)
    requires !v.decision.Undecided? && v.incidentId in w.incidents.items
    ensures var u := Commit(w, v, now).world;
            u == w.(incidents := u.incidents, outbox := u.outbox) && w.incidents.items.Keys <= u.incidents.items.Keys
  {
    if CanAdvance(w.incidents.items[v.incidentId].state, TargetOf(v.decision)) {
      AdvanceReaches(w.incidents, v.incidentId, TargetOf(v.decision), now);
    }
  }

  lemma OnlyGrows(w: World, v: World, id: Id)
    requires Runs.Known(w, id) && id in v.actions.byId && v.actions.byId[id] == w.actions.byId[id]
    requires v.attempts == w.attempts && v.checks == w.checks && w.incidents.items.Keys <= v.incidents.items.Keys
    ensures Runs.LeavesAlone(w, v, id)
  {}

  /** What a delivered decision writes. */
  lemma DecisionWrites(w: World, v: Verdict, now: int)
    requires w.actions.Filed() && !v.decision.Undecided?
    ensures var u := Decide(w, v, now).world;
            && u == w.(actions := u.actions, incidents := u.incidents, outbox := u.outbox)
               && w.incidents.items.Keys <= u.incidents.items.Keys
            && (u.actions == w.actions || u.actions == CreateAll(w.actions, v.commands))
  {
    if v.incidentId in w.incidents.items && !AlreadyDecided(w.incidents.items[v.incidentId])
        && !Stale(w.incidents.items[v.incidentId], v) {
      FreshDelivery(w, v, now);
      CommitLeaves(if v.decision.Allow? then w.(actions := CreateAll(w.actions, v.commands)) else w, v, now);
    }
  }

  lemma DecisionLeavesAlone(w: World, id: Id, v: Verdict, now: int)
    requires Runs.Known(w, id) && w.actions.Filed() && !v.decision.Undecided?
    requires forall c <- v.commands :: c.commandId !in w.actions.byId
    ensures Runs.LeavesAlone(w, Decide(w, v, now).world, id) && Decide(w, v, now).world.actions.Filed()
  {
    DecisionWrites(w, v, now);
    CreateAllKeepsOld(w.actions, v.commands, id);
    OnlyGrows(w, Decide(w, v, now).world, id);
  }

  /** A restart makes an orphaned SENT command uncertain, and undoes nothing that is settled. */
  lemma RestartLeavesAlone(w: World, id: Id)
    requires Runs.Known(w, id)
    ensures Runs.LeavesAlone(w, w.(actions := w.actions.MarkRestartUnknown()), id)
    ensures w.actions.Filed() ==> w.actions.MarkRestartUnknown().Filed()
  {}

  lemma VerifyingTouches(w: World, a: ActionCommand, attempt: nat, ans: Runs.Answers, c: Runs.Course, before: nat)
    requires w.actions.Filed()
    ensures Touches(w, Runs.Verifying(w, a, attempt, ans, c, before).world, a.commandId)
  {
    AsideTouches(w, w, a.commandId);
    FinishReverifyTouches(w, a, attempt, ans.verdict, c.verified, c.crash);
  }

  lemma ReadingTouches(w: World, a: ActionCommand, attempt: nat, ans: Runs.Answers, c: Runs.Course)
    requires w.actions.Filed()
    ensures Touches(w, Runs.Reading(w, a, attempt, ans, c).world, a.commandId)
  {
    var r := FinishRead(w, a, attempt, ans.read, c.read, c.crash);
    FinishReadTouches(w, a, attempt, ans.read, c.read, c.crash);
    if r.Ok? && r.value.AwaitReverify? {
      VerifyingTouches(r.world, r.value.action, r.value.attempt, ans, c, 1);
      TouchesTrans(w, r.world, Runs.Reading(w, a, attempt, ans, c).world, a.commandId);
    }
  }

  /** A whole call of the reconciler writes no command but its own. */
  lemma CallTouches(w: World, x: Id, s: Settings, rs: Retry, ans: Runs.Answers, c: Runs.Course)
    requires w.actions.Filed()
    ensures Touches(w, Runs.Call(w, x, s, rs, ans, c).world, x)
  {
    var r := Begin(w, x, s, rs, c.begun, c.crash);
    BeginTouches(w, x, s, rs, c.begun, c.crash);
    if r.Ok? && r.value.AwaitReverify? {
      VerifyingTouches(r.world, r.value.action, r.value.attempt, ans, c, 0);
      TouchesTrans(w, r.world, Runs.Call(w, x, s, rs, ans, c).world, x);
    } else if r.Ok? && r.value.AwaitRead? {
      ReadingTouches(r.world, r.value.action, r.value.attempt, ans, c);
      TouchesTrans(w, r.world, Runs.Call(w, x, s, rs, ans, c).world, x);
    }
  }

  lemma OtherCallLeavesAlone(w: World, id: Id, x: Id, s: Settings, rs: Retry, ans: Runs.Answers, c: Runs.Course)
    requires Runs.Known(w, id) && w.actions.Filed() && id != x
    ensures Runs.LeavesAlone(w, Runs.Call(w, x, s, rs, ans, c).world, id) && Runs.Call(w, x, s, rs, ans, c).world.actions.Filed()
  {
    CallTouches(w, x, s, rs, ans, c);
    UntouchedIsLeftAlone(w, Runs.Call(w, x, s, rs, ans, c).world, id, x);
  }

  // ---------------------------------------------------------------- all of them

  datatype Surrounding =
    | Handled(command: Id, cap: Capability, freshId: Id, t: Instants, fail: Option<Failpoint>, replies: seq<Reply>)
    | Decided(v: Verdict, now: int)
    | Restarted
    | Reconciled(other: Id, ans: Runs.Answers, course: Runs.Course)
    | Opened(incidentRecord: Incident)
    | Operated(incident: Id, to: IncidentState, now: int)
    | Repaired(incident: Id, now: int)
    | Renewed(leases: map<Id, Lease>, trust: map<Id, seq<TrustRecord>>)

  /** Identities are fresh, incidents open in DETECTED, and the reconciled command is another one than `id`. */
  predicate Admissible(w: World, e: Surrounding, id: Id) {
    match e
    case Handled(_, _, freshId, _, _, _) => freshId !in w.actions.byId
    case Decided(v, _) => !v.decision.Undecided? && forall c <- v.commands :: c.commandId !in w.actions.byId
    case Reconciled(other, _, _) => other != id
    case Opened(i) => i.incidentId !in w.incidents.items && i.state.Detected?
    case _ => true
  }

  ghost function Happened(w: World, e: Surrounding, id: Id, s: Settings, rs: Retry): World
    requires w.actions.Filed() && Admissible(w, e, id)
  {
    match e
    case Handled(command, cap, freshId, t, fail, replies) => Handle(w, command, s, cap, freshId, t, fail, replies)
    case Decided(v, now) => Decide(w, v, now).world
    case Restarted => w.(actions := w.actions.MarkRestartUnknown())
    case Reconciled(other, ans, course) => Runs.Call(w, other, s, rs, ans, course).world
    case Opened(i) => w.(incidents := w.incidents.CreateOrGetActive(i).0)
    case Operated(incident, to, now) =>
      (match w.incidents.Transition(incident, to, now) case Done(store) => w.(incidents := store) case Refused(_) => w)
    case Repaired(incident, now) =>
      if incident !in w.incidents.items || incident !in w.recovery then w
      else w.(incidents := w.incidents.(items := w.incidents.items[incident :=
                RecoveryConsistency.Repaired(w.incidents.items[incident], w.recovery[incident].state, now)]))
    case Renewed(leases, trust) => w.(leases := leases, trust := trust)
  }

  lemma OnlyIncidentsGrow(w: World, v: World, id: Id)
    requires Runs.Known(w, id) && v.actions == w.actions && v.attempts == w.attempts && v.checks == w.checks
    requires w.incidents.items.Keys <= v.incidents.items.Keys
    ensures Runs.LeavesAlone(w, v, id)
  {}

  lemma AsideLeavesAlone(w: World, e: Surrounding, id: Id, s: Settings, rs: Retry)
    requires Runs.Known(w, id) && w.actions.Filed() && Admissible(w, e, id)
    requires e.Opened? || e.Operated? || e.Repaired? || e.Renewed?
    ensures Runs.LeavesAlone(w, Happened(w, e, id, s, rs), id) && Happened(w, e, id, s, rs).actions == w.actions
  {
    AsideKeeps(w, e, id, s, rs);
    OnlyIncidentsGrow(w, Happened(w, e, id, s, rs), id);
  }

  lemma AsideKeeps(w: World, e: Surrounding, id: Id, s: Settings, rs: Retry)
    requires w.actions.Filed() && Admissible(w, e, id) && (e.Opened? || e.Operated? || e.Repaired? || e.Renewed?)
    ensures var v := Happened(w, e, id, s, rs);
            && v.actions == w.actions && v.attempts == w.attempts && v.checks == w.checks
            && w.incidents.items.Keys <= v.incidents.items.Keys
  {
    var v := Happened(w, e, id, s, rs);
    match e
    case Opened(i) =>
      assert v == w.(incidents := v.incidents);
      OpenedGrows(w.incidents, i);
    case Operated(incident, to, now) =>
      assert v == w.(incidents := v.incidents);
      MovedGrows(w.incidents, incident, to, now);
    case Repaired(incident, now) => assert v == w.(incidents := v.incidents);
    case Renewed(leases, trust) => assert v == w.(leases := leases, trust := trust);
  }

  lemma OpenedGrows(s: IncidentStore, i: Incident)
    ensures s.items.Keys <= s.CreateOrGetActive(i).0.items.Keys
  {}

  lemma MovedGrows(s: IncidentStore, id: Id, to: IncidentState, now: int)
    ensures var r := s.Transition(id, to, now); r.Done? ==> s.items.Keys <= r.value.items.Keys
  {}

  lemma SurroundingLeavesAlone(w: World, e: Surrounding, id: Id, s: Settings, rs: Retry)
    requires Runs.Known(w, id) && w.actions.Filed() && Admissible(w, e, id)
    ensures Runs.LeavesAlone(w, Happened(w, e, id, s, rs), id) && Happened(w, e, id, s, rs).actions.Filed()
  {
    match e
    case Handled(command, cap, freshId, t, fail, replies) => HandlerLeavesAlone(w, id, command, s, cap, freshId, t, fail, replies);
    case Decided(v, now) => DecisionLeavesAlone(w, id, v, now);
    case Restarted => RestartLeavesAlone(w, id);
    case Reconciled(other, ans, course) => OtherCallLeavesAlone(w, id, other, s, rs, ans, course);
    case _ => AsideLeavesAlone(w, e, id, s, rs);
  }

  // ---------------------------------------------------------------- whole runs

  datatype Step = Called(ans: Runs.Answers, course: Runs.Course) | Around(e: Surrounding)

  function StepOf(step: Step): Runs.Step {
    match step case Called(ans, c) => Runs.Called(ans, c) case Around(_) => Runs.Elsewhere
  }

  ghost predicate Moves(w: World, v: World, step: Step, t: Runs.Tally, before: int, after: int, g: Runs.Setting) {
    && w.actions.Filed()
    && match step
       case Called(ans, c) => Runs.Moves(w, v, Runs.Called(ans, c), t, before, after, g)
       case Around(e) =>
         && Admissible(w, e, g.id) && v == Happened(w, e, g.id, g.settings, g.retry)
         && g.id in w.actions.byId && t == Runs.TallyOf(w, Runs.Elsewhere, g) && before <= after
  }

  /** Calls of the reconciler for one command that was attempted and has nothing on record yet, among surroundings. */
  ghost predicate Run(worlds: seq<World>, steps: seq<Step>, ts: seq<Runs.Tally>, at: seq<int>, g: Runs.Setting) {
    && |worlds| == |steps| + 1 == |at| == |ts| + 1
    && Runs.Known(worlds[0], g.id) && Deadline(worlds[0].actions.byId[g.id], g.retry) == g.deadline
    && RowsOf(worlds[0], g.id) == [] && (forall k: nat :: Reverify(g.id, k) !in worlds[0].checks)
    && forall i, j :: 0 <= i < j < |worlds| && j == i + 1 ==> Moves(worlds[i], worlds[j], steps[i], ts[i], at[i], at[j], g)
  }

  function StepsOf(steps: seq<Step>): (r: seq<Runs.Step>)
    ensures |r| == |steps| && forall i :: 0 <= i < |r| ==> r[i] == StepOf(steps[i])
  {
    seq(|steps|, i requires 0 <= i < |steps| => StepOf(steps[i]))
  }

  /** One step among surroundings is a step of `ReconciliationRuns`, as long as the command is known. */
  lemma MovesThere(w: World, v: World, step: Step, t: Runs.Tally, before: int, after: int, g: Runs.Setting)
    requires Runs.Known(w, g.id) && Moves(w, v, step, t, before, after, g)
    ensures Runs.Moves(w, v, StepOf(step), t, before, after, g)
  {
    if step.Around? { SurroundingLeavesAlone(w, step.e, g.id, g.settings, g.retry); }
  }

  ghost predicate KnownMoves(w: World, v: World, step: Step, t: Runs.Tally, before: int, after: int, g: Runs.Setting) {
    Runs.Inv(w, g.id, g.retry, g.deadline, before) ==>
      Runs.Moves(w, v, StepOf(step), t, before, after, g) && Runs.Inv(v, g.id, g.retry, g.deadline, after)
  }

  lemma StepKnown(w: World, v: World, step: Step, t: Runs.Tally, before: int, after: int, g: Runs.Setting)
    requires Moves(w, v, step, t, before, after, g)
    ensures KnownMoves(w, v, step, t, before, after, g)
  {
    if Runs.Inv(w, g.id, g.retry, g.deadline, before) {
      MovesThere(w, v, step, t, before, after, g);
      Runs.MovesTally(w, v, StepOf(step), t, before, after, g);
    }
  }

  lemma {:induction false} InvAt(worlds: seq<World>, steps: seq<Step>, ts: seq<Runs.Tally>, at: seq<int>,
                                 g: Runs.Setting, n: nat)
    requires |worlds| == |steps| + 1 == |at| == |ts| + 1 && n < |worlds| && Runs.Inv(worlds[0], g.id, g.retry, g.deadline, at[0])
    requires forall i, j :: 0 <= i < j < |worlds| && j == i + 1 ==> KnownMoves(worlds[i], worlds[j], steps[i], ts[i], at[i], at[j], g)
    ensures Runs.Inv(worlds[n], g.id, g.retry, g.deadline, at[n])
  {
    if n > 0 {
      InvAt(worlds, steps, ts, at, g, n - 1);
      assert KnownMoves(worlds[n - 1], worlds[n], steps[n - 1], ts[n - 1], at[n - 1], at[n], g);
    }
  }

  /** Such a run is a run of `ReconciliationRuns`. */
  lemma IsRun(worlds: seq<World>, steps: seq<Step>, ts: seq<Runs.Tally>, at: seq<int>, g: Runs.Setting)
    requires Run(worlds, steps, ts, at, g)
    ensures Runs.Run(worlds, StepsOf(steps), ts, at, g)
  {
    forall i, j | 0 <= i < j < |worlds| && j == i + 1
      ensures KnownMoves(worlds[i], worlds[j], steps[i], ts[i], at[i], at[j], g)
    {
      StepKnown(worlds[i], worlds[j], steps[i], ts[i], at[i], at[j], g);
    }
    forall i, j | 0 <= i < j < |worlds| && j == i + 1
      ensures Runs.Moves(worlds[i], worlds[j], StepsOf(steps)[i], ts[i], at[i], at[j], g)
    {
      InvAt(worlds, steps, ts, at, g, i);
      assert KnownMoves(worlds[i], worlds[j], steps[i], ts[i], at[i], at[j], g);
    }
  }

  /** Whatever happens around the reconciler: at most two adapter reads for each allowed attempt, plus one for each call
      that died; at most `maxAttempts` attempts; and after `2 * maxAttempts + 1` due calls that ran to their end the
      command is settled or escalated. */
  lemma ReconciliationBounded(worlds: seq<World>, steps: seq<Step>, ts: seq<Runs.Tally>, at: seq<int>, g: Runs.Setting,
                              n: nat)
    requires Run(worlds, steps, ts, at, g) && n <= |steps|
    ensures Runs.TotalReads(ts[..n]) <= 2 * g.retry.maxAttempts + Runs.Died(ts[..n])
    ensures Count(RowsOf(worlds[n], g.id)) <= g.retry.maxAttempts
    ensures Runs.DueCalls(ts[..n]) <= 2 * g.retry.maxAttempts + 1
    ensures Runs.DueCalls(ts[..n]) == 2 * g.retry.maxAttempts + 1 ==> Runs.Known(worlds[n], g.id) && Runs.Quiet(worlds[n], g.id)
  {
    IsRun(worlds, steps, ts, at, g);
    Runs.ReadsBounded(worlds, StepsOf(steps), ts, at, g, n);
    Runs.ReconciliationEnds(worlds, StepsOf(steps), ts, at, g, n);
  }

  /** And once it is settled or escalated it stays so, without a further read or record. */
  lemma SettledForGood(worlds: seq<World>, steps: seq<Step>, ts: seq<Runs.Tally>, at: seq<int>, g: Runs.Setting, m: nat,
                       n: nat)
    requires Run(worlds, steps, ts, at, g) && m <= n <= |steps| && Runs.Known(worlds[m], g.id) && Runs.Quiet(worlds[m], g.id)
    ensures Runs.Known(worlds[n], g.id) && Runs.Quiet(worlds[n], g.id) && RowsOf(worlds[n], g.id) == RowsOf(worlds[m], g.id)
    ensures Runs.TotalReads(ts[..n]) == Runs.TotalReads(ts[..m])
  {
    IsRun(worlds, steps, ts, at, g);
    Runs.NothingAfterQuiet(worlds, StepsOf(steps), ts, at, g, m, n);
  }

  /** Attempt `k + 1` is recorded at least the sum of the first `k` backoffs after attempt 1, and that sum fits before
      the deadline, which bounds the attempts by arithmetic alone. */
  lemma AttemptsStaySpaced(worlds: seq<World>, steps: seq<Step>, ts: seq<Runs.Tally>, at: seq<int>, g: Runs.Setting,
                           n: nat, k: nat)
    requires Run(worlds, steps, ts, at, g) && n <= |steps| && g.retry.Valid() && 0 < k < Count(RowsOf(worlds[n], g.id))
    ensures k < |RowsOf(worlds[n], g.id)|
    ensures var rows := RowsOf(worlds[n], g.id);
            && rows[0].updatedAt + Runs.Waits(k, g.retry) <= rows[k].updatedAt
            && rows[0].updatedAt + Runs.Waits(k, g.retry) < g.deadline
            && k * Runs.Smallest(g.retry) < g.deadline - rows[0].updatedAt
  {
    IsRun(worlds, steps, ts, at, g);
    Runs.AttemptsSpaced(worlds, StepsOf(steps), ts, at, g, n, k);
  }
}
