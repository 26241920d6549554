/** Whole runs of the executor, the reconciler, the decision handler and restarts, interleaved at every
    await: authority at every provider call, the spend ceiling, and no false success.

    An answer may reach a handler suspended with any snapshot at all, so every interleaving of any
    number of handlers, crashes included, is among the runs. */
module ExecutionRuns {
  import opened Options
  import opened DurableCore
  import opened IncidentRepository
  import opened RecoveryConsistency
  import opened Execution
  import opened CallConditions
  import opened Reconciliation
  import opened Decisions
  import opened ExecutionSegments
  import Seqs

  datatype Config = Config(settings: Settings, retry: Retry)

  datatype Event =
    | Execute(id: Id, cap: Capability, freshId: Id, t: Instants, fail: Option<Failpoint>)
    | ExecuteAnswered(sent: ActionCommand, provider: ProviderAnswer, now: int, fail: Option<Failpoint>)
    | ReconcileAnswered(action: ActionCommand, found: ReconcileAnswer, now: int)
    | VerifyAnswered(action: ActionCommand, verdict: VerifyAnswer, cap: Capability, freshId: Id, now: int, fail: Option<Failpoint>)
    | RollbackAnswered(action: ActionCommand, sent: ActionCommand, provider: ProviderAnswer, explicit: bool, now: int,
                       fail: Option<Failpoint>)
    | RollbackVerified(action: ActionCommand, accepted: ActionCommand, verified: bool, now: int)
    | Reconcile(id: Id, now: int, crash: Crash)
    | ReadAnswered(action: ActionCommand, attempt: nat, read: ReadAnswer, now: int, crash: Crash)
    | ReverifyAnswered(action: ActionCommand, attempt: nat, verdict: VerifyAnswer, now: int, crash: Crash)
    | Decision(reached: Verdict, now: int)
    | Restarted
    | ProjectionRepaired(incident: Id, now: int)
    | Opened(incidentRecord: Incident)
    | Operated(incident: Id, to: IncidentState, now: int)
    | Renewed(leases: map<Id, Lease>, trust: map<Id, seq<TrustRecord>>)

  /** What callers provide: identities are fresh, incidents open in DETECTED, and only the two services resolve. */
  predicate Admissible(w: World, e: Event) {
    match e
    case Execute(_, _, freshId, _, _) => freshId !in w.actions.byId
    case VerifyAnswered(_, _, _, freshId, _, _) => freshId !in w.actions.byId
    case Decision(v, _) =>
      !v.decision.Undecided? && (v.incidentId in w.incidents.items ==>
        PlanCommands(w.actions, v.commands, v.incidentId, w.incidents.items[v.incidentId].planVersion + 1))
    case Opened(i) => i.incidentId !in w.incidents.items && i.state.Detected?
    case Operated(_, to, _) => !to.Resolved?
    case _ => true
  }

  ghost function Step(w: World, e: Event, c: Config): World
    requires w.actions.Filed() && Admissible(w, e)
  {
    match e
    case Execute(id, cap, freshId, t, fail) => Start(w, id, c.settings, cap, freshId, t, fail).world
    case ExecuteAnswered(sent, provider, now, fail) => AfterExecute(w, sent, provider, now, fail).world
    case ReconcileAnswered(a, found, now) => AfterReconcile(w, a, found, now).world
    case VerifyAnswered(a, v, cap, freshId, now, fail) => AfterVerify(w, a, v, c.settings, cap, freshId, now, fail).world
    case RollbackAnswered(a, sent, provider, explicit, now, fail) => AfterRollback(w, a, sent, provider, explicit, now, fail).world
    case RollbackVerified(a, accepted, verified, now) => AfterVerifyRollback(w, a, accepted, verified, now).world
    case Reconcile(id, now, crash) => Begin(w, id, c.settings, c.retry, now, crash).world
    case ReadAnswered(a, attempt, read, now, crash) => FinishRead(w, a, attempt, read, now, crash).world
    case ReverifyAnswered(a, attempt, v, now, crash) => FinishReverify(w, a, attempt, v, now, crash).world
    case Decision(v, now) => Decide(w, v, now).world
    case Restarted => w.(actions := w.actions.MarkRestartUnknown())
    case ProjectionRepaired(incident, now) =>
      if incident !in w.incidents.items || incident !in w.recovery then w
      else w.(incidents := w.incidents.(items :=
                w.incidents.items[incident := Repaired(w.incidents.items[incident], w.recovery[incident].state, now)]))
    case Opened(i) => w.(incidents := w.incidents.CreateOrGetActive(i).0)
    case Operated(id, to, now) =>
      (match w.incidents.Transition(id, to, now) case Done(store) => w.(incidents := store) case Refused(_) => w)
    case Renewed(leases, trust) => w.(leases := leases, trust := trust)
  }

  predicate Empty(w: World) {
    && w.actions == ActionStore(map[], map[]) && w.incidents == IncidentStore(map[], map[])
    && w.ledger == [] && w.checks == map[] && w.journal == Journal({}, {}, {}, [])
  }

  ghost predicate Run(worlds: seq<World>, events: seq<Event>, c: Config) {
    && |worlds| == |events| + 1 && Empty(worlds[0])
    && forall i :: 0 <= i < |events| ==>
         worlds[i].actions.Filed() && Admissible(worlds[i], events[i]) && worlds[i + 1] == Step(worlds[i], events[i], c)
  }

  // ---------------------------------------------------------------- one step

  /** `e` answers a verification of command `id`, and the answer proves the mitigation: the executor takes an
      improvement or a present resource for that, the reconciler nothing but an improvement. */
  predicate Improves(e: Event, id: Id) {
    || (e.VerifyAnswered? && e.action.commandId == id && (e.verdict.VerifiedImproved? || e.verdict.VerifiedResource?))
    || (e.ReverifyAnswered? && e.action.commandId == id && e.verdict.VerifiedImproved?)
  }

  /** `e` verifies a rollback of, or by, command `id`. */
  predicate Undoes(e: Event, id: Id) {
    e.RollbackVerified? && e.verified && (e.action.commandId == id || e.accepted.commandId == id)
  }

  /** `w` with the evidence that `e` brings on record. */
  function Recorded(w: World, e: Event): World {
    match e
    case VerifyAnswered(a, v, _, _, now, _) =>
      Proven(w, Verify(a.commandId), a.incidentId, Improves(e, a.commandId), v.VerifiedImproved?, now)
    case ReverifyAnswered(a, attempt, v, now, _) =>
      Proven(w, Reverify(a.commandId, attempt), a.incidentId, Improves(e, a.commandId), v.VerifiedImproved?, now)
    case RollbackVerified(a, accepted, true, _) => Undone(w, a, accepted)
    case _ => w
  }

  ghost predicate StepEarned(w: World, v: World, e: Event, c: Config) {
    Earns(Recorded(w, e), v) || (e.Execute? && Calls(w, v, e.id, c.settings, e.t))
  }

  lemma ExecutorStepEarned(w: World, e: Event, c: Config)
    requires w.actions.Filed() && Admissible(w, e)
    requires e.Execute? || e.ExecuteAnswered? || e.ReconcileAnswered? || e.VerifyAnswered? || e.RollbackAnswered? || e.RollbackVerified?
    ensures StepEarned(w, Step(w, e, c), e, c)
  {
    var v := Step(w, e, c);
    match e
    case Execute(id, cap, freshId, t, fail) =>
      StartCalls(w, id, c.settings, cap, freshId, t, fail);
      if !Awaits(Start(w, id, c.settings, cap, freshId, t, fail)) { KeepsIsEarns(w, v); }
    case ExecuteAnswered(sent, provider, now, fail) => AfterExecuteKeeps(w, sent, provider, now, fail); KeepsIsEarns(w, v);
    case ReconcileAnswered(a, found, now) => AfterReconcileKeeps(w, a, found, now); KeepsIsEarns(w, v);
    case VerifyAnswered(a, verdict, cap, freshId, now, fail) => AfterVerifyEarns(w, a, verdict, c.settings, cap, freshId, now, fail);
    case RollbackAnswered(a, sent, provider, explicit, now, fail) =>
      AfterRollbackKeeps(w, a, sent, provider, explicit, now, fail); KeepsIsEarns(w, v);
    case RollbackVerified(a, accepted, verified, now) =>
      if verified { AfterVerifyRollbackEarns(w, a, accepted, now); }
      else { UnverifiedRollbackKeeps(w, a, accepted, now); KeepsIsEarns(w, v); }
  }

  lemma OpenedKeeps(w: World, i: Incident)
    requires i.state.Detected?
    ensures Keeps(w, w.(incidents := w.incidents.CreateOrGetActive(i).0))
  {}

  lemma OperatedKeeps(w: World, id: Id, to: IncidentState, now: int)
    requires !to.Resolved? && w.incidents.Transition(id, to, now).Done?
    ensures Keeps(w, w.(incidents := w.incidents.Transition(id, to, now).value))
  {}

  lemma RestartKeeps(w: World)
    ensures Keeps(w, w.(actions := w.actions.MarkRestartUnknown()))
  {}

  lemma RepairKeeps(w: World, incident: Id, now: int)
    requires incident in w.incidents.items && incident in w.recovery
    ensures Keeps(w, w.(incidents := w.incidents.(items :=
              w.incidents.items[incident := Repaired(w.incidents.items[incident], w.recovery[incident].state, now)])))
  {}

  lemma OtherStepEarned(w: World, e: Event, c: Config)
    requires w.actions.Filed() && Admissible(w, e)
    requires e.Decision? || e.Restarted? || e.ProjectionRepaired? || e.Opened? || e.Operated? || e.Renewed?
    ensures StepEarned(w, Step(w, e, c), e, c)
  {
    var v := Step(w, e, c);
    match e {
      case Decision(reached, now) => DecideKeeps(w, reached, now);
      case Restarted => RestartKeeps(w);
      case ProjectionRepaired(incident, now) =>
        if incident in w.incidents.items && incident in w.recovery { RepairKeeps(w, incident, now); } else { AsideKeeps(w, w); }
      case Opened(i) => OpenedKeeps(w, i);
      case Operated(id, to, now) =>
        if w.incidents.Transition(id, to, now).Done? { OperatedKeeps(w, id, to, now); } else { AsideKeeps(w, w); }
      case Renewed(_, _) => AsideKeeps(w, v);
    }
    KeepsIsEarns(w, v);
  }

  lemma StepIsEarned(w: World, e: Event, c: Config)
    requires w.actions.Filed() && Admissible(w, e)
    ensures StepEarned(w, Step(w, e, c), e, c)
  {
    if e.Reconcile? || e.ReadAnswered? || e.ReverifyAnswered? {
      ReconcilerStepEarned(w, e, c);
    } else if e.Decision? || e.Restarted? || e.ProjectionRepaired? || e.Opened? || e.Operated? || e.Renewed? {
      OtherStepEarned(w, e, c);
    } else {
      ExecutorStepEarned(w, e, c);
    }
  }

  lemma ReconcilerStepEarned(w: World, e: Event, c: Config)
    requires w.actions.Filed() && Admissible(w, e) && (e.Reconcile? || e.ReadAnswered? || e.ReverifyAnswered?)
    ensures StepEarned(w, Step(w, e, c), e, c)
  {
    var v := Step(w, e, c);
    match e
    case Reconcile(id, now, crash) => BeginEarns(w, id, c.settings, c.retry, now, crash);
    case ReadAnswered(a, attempt, read, now, crash) => FinishReadKeeps(w, a, attempt, read, now, crash); KeepsIsEarns(w, v);
    case ReverifyAnswered(a, attempt, verdict, now, crash) => FinishReverifyEarns(w, a, attempt, verdict, now, crash);
  }

  /** What the proofs below need of a run. */
  ghost predicate EarnedRun(worlds: seq<World>, events: seq<Event>, c: Config) {
    && |worlds| == |events| + 1 && Empty(worlds[0])
    && forall i, j :: 0 <= i < j < |worlds| && j == i + 1 ==> StepEarned(worlds[i], worlds[j], events[i], c)
  }

  lemma RunIsEarned(worlds: seq<World>, events: seq<Event>, c: Config)
    requires Run(worlds, events, c)
    ensures EarnedRun(worlds, events, c)
  {
    forall i, j | 0 <= i < j < |worlds| && j == i + 1
      ensures StepEarned(worlds[i], worlds[j], events[i], c)
    {
      StepIsEarned(worlds[i], events[i], c);
    }
  }

  /** `Filed` is no restriction on runs: it holds at the start and every step keeps it. */
  lemma StepStaysFiled(w: World, e: Event, c: Config)
    requires w.actions.Filed() && Admissible(w, e)
    ensures Step(w, e, c).actions.Filed()
  {
    StepIsEarned(w, e, c);
  }

  // ---------------------------------------------------------------- money

  /** Every charge is 75 or 20 cents, for a command that is past READY, and no command is charged twice. */
  ghost predicate WithinCeiling(w: World, ceiling: nat) {
    && (forall incident :: Total(w.ledger, incident) <= ceiling)
    && (forall i :: 0 <= i < |w.ledger| ==> w.ledger[i].cents == 75 || w.ledger[i].cents == 20)
    && (forall i, j :: 0 <= i < j < |w.ledger| ==> w.ledger[i].commandId != w.ledger[j].commandId)
    && (forall i :: 0 <= i < |w.ledger| ==> w.ledger[i].commandId in w.actions.byId && !w.actions.byId[w.ledger[i].commandId].state.Ready?)
  }

  /** A command that was READY until this step cannot have been charged before, so the call is what it is charged for.
      */
  lemma CallIsCharged(w: World, v: World, id: Id, s: Settings, t: Instants)
    requires WithinCeiling(w, s.ceilingCents) && Calls(w, v, id, s, t)
    ensures v.ledger == w.ledger + PriceOf(v.journal.calls[|w.journal.calls|], v.actions.byId[id].incidentId)
  {
    forall x | x in w.ledger
      ensures x.commandId != id
    {
      var i :| 0 <= i < |w.ledger| && w.ledger[i] == x;
    }
  }

  function PriceOf(call: ProviderCall, incident: Id): seq<Charge> {
    if call.ExecuteCall? && call.cents != 0 then [Charge(call.commandId, incident, call.cents)] else []
  }

  lemma ChargedWithinCeiling(w: World, v: World, id: Id, s: Settings, t: Instants)
    requires WithinCeiling(w, s.ceilingCents) && Calls(w, v, id, s, t)
    ensures WithinCeiling(v, s.ceilingCents)
  {
    CallIsCharged(w, v, id, s, t);
    if v.ledger != w.ledger { OneMore(w.ledger, v.ledger, s.ceilingCents); }
  }

  /** A charge that stays below the ceiling of its incident touches no other. */
  lemma OneMore(before: seq<Charge>, after: seq<Charge>, ceiling: nat)
    requires before < after && |after| == |before| + 1 && forall incident :: Total(before, incident) <= ceiling
    requires Total(before, after[|before|].incidentId) + after[|before|].cents <= ceiling
    ensures forall incident :: Total(after, incident) <= ceiling
  {
    forall incident
      ensures Total(after, incident) <= ceiling
    {
      assert after[..|after| - 1] == before && Total(before, incident) <= ceiling;
    }
  }

  /** A step that charges nothing and readies nothing. */
  lemma FreeWithinCeiling(w: World, e: Event, v: World, ceiling: nat)
    requires WithinCeiling(w, ceiling) && Earns(Recorded(w, e), v)
    ensures WithinCeiling(v, ceiling)
  {
    FreeStep(w, e, v);
    forall i | 0 <= i < |v.ledger|
      ensures v.ledger[i].commandId in v.actions.byId && !v.actions.byId[v.ledger[i].commandId].state.Ready?
    {
      assert Recorded(w, e).actions == w.actions;
    }
  }

  lemma StepWithinCeiling(w: World, v: World, e: Event, c: Config)
    requires WithinCeiling(w, c.settings.ceilingCents) && StepEarned(w, v, e, c)
    ensures WithinCeiling(v, c.settings.ceilingCents)
  {
    if Earns(Recorded(w, e), v) { FreeWithinCeiling(w, e, v, c.settings.ceilingCents); }
    else { ChargedWithinCeiling(w, v, e.id, c.settings, e.t); }
  }

  lemma {:induction false} RunMoney(worlds: seq<World>, events: seq<Event>, c: Config, n: nat)
    requires EarnedRun(worlds, events, c) && n <= |events|
    ensures WithinCeiling(worlds[n], c.settings.ceilingCents)
  {
    if n > 0 {
      var k := n - 1;
      RunMoney(worlds, events, c, k);
      StepWithinCeiling(worlds[k], worlds[n], events[k], c);
    }
  }

  /** A charge of so many cents for an incident. */
  function IsCharge(incident: Id, cents: nat): Charge -> bool {
    (x: Charge) => x.incidentId == incident && x.cents == cents
  }

  function ChargesOf(ledger: seq<Charge>, incident: Id, cents: nat): set<int> {
    Seqs.Places(ledger, IsCharge(incident, cents))
  }

  lemma {:induction false} TotalCounts(ledger: seq<Charge>, incident: Id)
    requires forall i :: 0 <= i < |ledger| ==> ledger[i].cents == 75 || ledger[i].cents == 20
    ensures Total(ledger, incident) == 75 * |ChargesOf(ledger, incident, 75)| + 20 * |ChargesOf(ledger, incident, 20)|
  {
    if ledger == [] {
      assert ChargesOf(ledger, incident, 75) == {} && ChargesOf(ledger, incident, 20) == {};
    } else {
      TotalCounts(ledger[..|ledger| - 1], incident);
      Seqs.PlacesGrow(ledger, IsCharge(incident, 75));
      Seqs.PlacesGrow(ledger, IsCharge(incident, 20));
    }
  }

  /** In every reachable state the ledger holds charges of 75 and 20 cents, those of an incident together stay within
      the ceiling, and no command was charged twice. */
  lemma SpendCeiling(worlds: seq<World>, events: seq<Event>, c: Config, n: nat, incident: Id, i: nat, j: nat)
    requires Run(worlds, events, c) && n <= |events|
    ensures var ledger := worlds[n].ledger;
            && 75 * |ChargesOf(ledger, incident, 75)| + 20 * |ChargesOf(ledger, incident, 20)| <= c.settings.ceilingCents
            && (i < |ledger| ==> ledger[i].cents == 75 || ledger[i].cents == 20)
            && (i < j < |ledger| ==> ledger[i].commandId != ledger[j].commandId)
  {
    RunIsEarned(worlds, events, c);
    RunMoney(worlds, events, c, n);
    TotalCounts(worlds[n].ledger, incident);
  }

  /** What the `execute` calls cost, call by call. */
  function Bill(calls: seq<ProviderCall>): seq<(Id, nat)> {
    if calls == [] then []
    else
      var last := calls[|calls| - 1];
      Bill(calls[..|calls| - 1]) + if last.ExecuteCall? && last.cents != 0 then [(last.commandId, last.cents)] else []
  }

  function Paid(ledger: seq<Charge>): seq<(Id, nat)> {
    seq(|ledger|, i requires 0 <= i < |ledger| => (ledger[i].commandId, ledger[i].cents))
  }

  lemma {:induction false} RollbacksAreFree(before: seq<ProviderCall>, after: seq<ProviderCall>)
    requires before <= after && forall i :: |before| <= i < |after| ==> after[i].RollbackCall?
    ensures Bill(after) == Bill(before)
    decreases |after|
  {
    if |before| < |after| {
      var n := |after| - 1;
      assert after[..n][..|before|] == before;
      RollbacksAreFree(before, after[..n]);
    } else {
      assert after == before;
    }
  }

  /** A step that earns what it ends costs nothing and executes nothing. */
  lemma FreeStep(w: World, e: Event, v: World)
    requires Earns(Recorded(w, e), v)
    ensures v.ledger == w.ledger && OnlyRollbacks(w, v)
  {}

  lemma StepCallsGrow(w: World, v: World, e: Event, c: Config)
    requires StepEarned(w, v, e, c)
    ensures w.journal.calls <= v.journal.calls
  {
    if Earns(Recorded(w, e), v) { FreeStep(w, e, v); }
  }

  lemma StepBills(w: World, v: World, e: Event, c: Config)
    requires StepEarned(w, v, e, c) && WithinCeiling(w, c.settings.ceilingCents) && Paid(w.ledger) == Bill(w.journal.calls)
    ensures Paid(v.ledger) == Bill(v.journal.calls)
  {
    if Earns(Recorded(w, e), v) {
      FreeStep(w, e, v);
      RollbacksAreFree(w.journal.calls, v.journal.calls);
    } else {
      CallIsBilled(w, v, e.id, c.settings, e.t);
    }
  }

  /** Money and calls never part: the ledger of every reachable state is the bill of the `execute` calls made so far,
      in their order. */
  lemma {:induction false} LedgerIsTheBill(worlds: seq<World>, events: seq<Event>, c: Config, n: nat)
    requires Run(worlds, events, c) && n <= |events|
    ensures Paid(worlds[n].ledger) == Bill(worlds[n].journal.calls)
  {
    RunIsEarned(worlds, events, c);
    if n > 0 {
      var k := n - 1;
      LedgerIsTheBill(worlds, events, c, k);
      RunMoney(worlds, events, c, k);
      StepBills(worlds[k], worlds[n], events[k], c);
    }
  }

  lemma CallIsBilled(w: World, v: World, id: Id, s: Settings, t: Instants)
    requires WithinCeiling(w, s.ceilingCents) && Calls(w, v, id, s, t) && Paid(w.ledger) == Bill(w.journal.calls)
    ensures Paid(v.ledger) == Bill(v.journal.calls)
  {
    CallIsCharged(w, v, id, s, t);
    assert v.journal.calls[..|v.journal.calls| - 1] == w.journal.calls;
    assert Paid(v.ledger) == Paid(w.ledger) + if v.ledger == w.ledger then [] else [(id, v.journal.calls[|w.journal.calls|].cents)];
  }

  // ---------------------------------------------------------------- provider calls

  /** Step `e` ends in provider call `i`, with full authority, and charges it at its price. */
  ghost predicate CallsAt(w: World, v: World, e: Event, s: Settings, i: nat) {
    && e.Execute? && |w.journal.calls| == i < |v.journal.calls|
    && e.id in w.actions.byId && w.actions.byId[e.id].state == Ready && Authorized(v, e.id, s, e.t)
    && var a, call := v.actions.byId[e.id], v.journal.calls[i];
    && call.ExecuteCall? && call.commandId == e.id && Priced(a, call.cents)
    && v.ledger == w.ledger + if call.cents == 0 then [] else [Charge(e.id, a.incidentId, call.cents)]
  }

  /** Provider call `i` was made by step `k`. */
  ghost predicate CalledAt(worlds: seq<World>, events: seq<Event>, c: Config, k: nat, i: nat)
    requires |worlds| == |events| + 1
  {
    k < |events| && CallsAt(worlds[k], worlds[k + 1], events[k], c.settings, i)
  }

  lemma StepCallsAt(w: World, v: World, e: Event, c: Config, i: nat)
    requires StepEarned(w, v, e, c) && WithinCeiling(w, c.settings.ceilingCents)
    requires |w.journal.calls| <= i < |v.journal.calls| && v.journal.calls[i].ExecuteCall?
    ensures CallsAt(w, v, e, c.settings, i)
  {
    if Earns(Recorded(w, e), v) {
      FreeStep(w, e, v);
    } else {
      CallIsCharged(w, v, e.id, c.settings, e.t);
    }
  }

  lemma {:induction false} CallsAreAuthorized(worlds: seq<World>, events: seq<Event>, c: Config, n: nat, i: nat)
    requires EarnedRun(worlds, events, c) && n <= |events|
    requires i < |worlds[n].journal.calls| && worlds[n].journal.calls[i].ExecuteCall?
    ensures exists k :: 0 <= k < n && CalledAt(worlds, events, c, k, i)
    decreases n
  {
    var k := n - 1;
    assert StepEarned(worlds[k], worlds[n], events[k], c);
    if i < |worlds[k].journal.calls| {
      StepCallsGrow(worlds[k], worlds[n], events[k], c);
      CallsAreAuthorized(worlds, events, c, k, i);
    } else {
      RunMoney(worlds, events, c, k);
      StepCallsAt(worlds[k], worlds[n], events[k], c, i);
      assert CalledAt(worlds, events, c, k, i);
    }
  }

  /** Every `adapter.execute` of a run is the end of one `execute_ready_action` step that began with the command READY.
      In its world the command is SENT and its incident is being worked on under the very plan of the command, which
      WARDEN allows and no other plan has overtaken; the request is fresh, within every limit and trusted where it has to
      be; the lease is live; and the step has charged what the call costs. */
  lemma AuthorityAtEveryCall(worlds: seq<World>, events: seq<Event>, c: Config, n: nat, i: nat)
    requires Run(worlds, events, c) && n <= |events|
    requires i < |worlds[n].journal.calls| && worlds[n].journal.calls[i].ExecuteCall?
    ensures exists k :: 0 <= k < n && CalledAt(worlds, events, c, k, i)
  {
    RunIsEarned(worlds, events, c);
    CallsAreAuthorized(worlds, events, c, n, i);
  }

  /** The commands behind `execute` calls are known, past READY, and all different. */
  ghost predicate CallsSpent(w: World) {
    && (forall i :: 0 <= i < |w.journal.calls| && w.journal.calls[i].ExecuteCall? ==>
        w.journal.calls[i].commandId in w.actions.byId && !w.actions.byId[w.journal.calls[i].commandId].state.Ready?)
    && (forall i, j :: 0 <= i < j < |w.journal.calls| && w.journal.calls[i].ExecuteCall? && w.journal.calls[j].ExecuteCall? ==>
        w.journal.calls[i].commandId != w.journal.calls[j].commandId)
  }

  lemma EarnsKeepsSpent(w: World, v: World)
    requires CallsSpent(w) && Earns(w, v)
    ensures CallsSpent(v)
  {
    forall i | 0 <= i < |v.journal.calls| && v.journal.calls[i].ExecuteCall?
      ensures i < |w.journal.calls| && v.journal.calls[i] == w.journal.calls[i]
    {}
  }

  lemma CallsKeepSpent(w: World, v: World, id: Id, s: Settings, t: Instants)
    requires CallsSpent(w) && Calls(w, v, id, s, t)
    ensures CallsSpent(v)
  {}

  lemma {:induction false} RunSpent(worlds: seq<World>, events: seq<Event>, c: Config, n: nat)
    requires EarnedRun(worlds, events, c) && n <= |events|
    ensures CallsSpent(worlds[n])
  {
    if n > 0 {
      RunSpent(worlds, events, c, n - 1);
      var w, v, e := worlds[n - 1], worlds[n], events[n - 1];
      if Earns(Recorded(w, e), v) {
        EarnsKeepsSpent(Recorded(w, e), v);
      } else {
        CallsKeepSpent(w, v, e.id, c.settings, e.t);
      }
    }
  }

  /** No command is executed twice, restarts and reconciliation included. */
  lemma ExecutedOnce(worlds: seq<World>, events: seq<Event>, c: Config, n: nat, i: nat, j: nat)
    requires Run(worlds, events, c) && n <= |events| && i < j < |worlds[n].journal.calls|
    requires worlds[n].journal.calls[i].ExecuteCall? && worlds[n].journal.calls[j].ExecuteCall?
    ensures worlds[n].journal.calls[i].commandId != worlds[n].journal.calls[j].commandId
  {
    RunIsEarned(worlds, events, c);
    RunSpent(worlds, events, c, n);
  }

  // ---------------------------------------------------------------- no false success

  /** The evidence in the journal came from verified answers of the run. */
  ghost predicate Evidenced(worlds: seq<World>, events: seq<Event>, n: nat)
    requires n <= |events| && |worlds| == |events| + 1
  {
    && (forall check <- worlds[n].checks :: worlds[n].checks[check].improved ==>
        exists k :: 0 <= k < n && ShowsImprovement(events[k], worlds[n].checks[check].incidentId))
    && (forall id <- worlds[n].journal.improved :: exists k :: 0 <= k < n && Improves(events[k], id))
    && (forall id <- worlds[n].journal.undone :: exists k :: 0 <= k < n && Undoes(events[k], id))
    && (forall id <- worlds[n].journal.recovered :: exists k :: 0 <= k < n && Restores(events[k], id))
  }

  /** `e` verifies a rollback for incident `id`. */
  predicate Restores(e: Event, id: Id) { e.RollbackVerified? && e.verified && e.action.incidentId == id }

  /** `e` answers a verification for incident `id` with an improvement. */
  predicate ShowsImprovement(e: Event, id: Id) {
    (e.VerifyAnswered? || e.ReverifyAnswered?) && e.verdict.VerifiedImproved? && e.action.incidentId == id
  }

  ghost predicate EndsEvidenced(w: World) {
    forall id <- w.actions.byId ::
      && (w.actions.byId[id].state.Success? ==> id in w.journal.improved)
      && (w.actions.byId[id].state.RolledBack? ==> id in w.journal.undone)
  }

  lemma StepProof(w: World, v: World, e: Event, c: Config)
    requires StepEarned(w, v, e, c)
    ensures v.journal.improved == Recorded(w, e).journal.improved && v.journal.undone == Recorded(w, e).journal.undone
            && v.journal.recovered == Recorded(w, e).journal.recovered && NoNewProof(Recorded(w, e), v)
  {}

  lemma {:induction false} RunEvidenced(worlds: seq<World>, events: seq<Event>, c: Config, n: nat)
    requires EarnedRun(worlds, events, c) && n <= |events|
    ensures Evidenced(worlds, events, n)
  {
    if n > 0 {
      var m := n - 1;
      RunEvidenced(worlds, events, c, m);
      var w, v, e := worlds[m], worlds[n], events[m];
      StepProof(w, v, e, c);
      forall check | check in v.checks && v.checks[check].improved
        ensures exists k :: 0 <= k < n && ShowsImprovement(events[k], v.checks[check].incidentId)
      {
        if check !in w.checks || !w.checks[check].improved || w.checks[check].incidentId != v.checks[check].incidentId {
          assert ShowsImprovement(events[m], v.checks[check].incidentId);
        }
      }
      forall id | id in v.journal.improved
        ensures exists k :: 0 <= k < n && Improves(events[k], id)
      {
        if id !in w.journal.improved { assert Improves(events[m], id); }
      }
      forall id | id in v.journal.undone
        ensures exists k :: 0 <= k < n && Undoes(events[k], id)
      {
        if id !in w.journal.undone { assert Undoes(events[m], id); }
      }
      forall id | id in v.journal.recovered
        ensures exists k :: 0 <= k < n && Restores(events[k], id)
      {
        if id !in w.journal.recovered { assert Restores(events[m], id); }
      }
    }
  }

  lemma {:induction false} RunEndsEvidenced(worlds: seq<World>, events: seq<Event>, c: Config, n: nat)
    requires EarnedRun(worlds, events, c) && n <= |events|
    ensures EndsEvidenced(worlds[n])
  {
    if n > 0 {
      RunEndsEvidenced(worlds, events, c, n - 1);
      assert StepEarned(worlds[n - 1], worlds[n], events[n - 1], c);
    }
  }

  /** A command is SUCCESS only after an answer that proves its mitigation, and ROLLED_BACK only after a verified
      rollback of it. */
  lemma NoFalseSuccess(worlds: seq<World>, events: seq<Event>, c: Config, n: nat, id: Id)
    requires Run(worlds, events, c) && n <= |events| && id in worlds[n].actions.byId
    ensures worlds[n].actions.byId[id].state.Success? ==> exists k :: 0 <= k < n && Improves(events[k], id)
    ensures worlds[n].actions.byId[id].state.RolledBack? ==> exists k :: 0 <= k < n && Undoes(events[k], id)
  {
    RunIsEarned(worlds, events, c);
    RunEvidenced(worlds, events, c, n);
    RunEndsEvidenced(worlds, events, c, n);
  }

  /** Why step `k` could resolve incident `id`: all commands of a plan of it were SUCCESS and an improvement of it had
      been verified, or a rollback for it had been. */
  ghost predicate ResolvedBy(worlds: seq<World>, events: seq<Event>, k: nat, id: Id)
    requires |worlds| == |events| + 1
  {
    && k < |events| && !InState(worlds[k], id, Resolved) && InState(worlds[k + 1], id, Resolved)
    && (|| (SomePlanSucceeded(worlds[k + 1], id) && exists m :: 0 <= m <= k && ShowsImprovement(events[m], id))
        || (exists m :: 0 <= m <= k && Restores(events[m], id)))
  }

  lemma ResolvingStep(w: World, v: World, e: Event, c: Config, id: Id)
    requires StepEarned(w, v, e, c) && !InState(w, id, Resolved) && InState(v, id, Resolved)
    ensures Mitigated(v, id) || id in v.journal.recovered
  {
    if Earns(Recorded(w, e), v) { assert !InState(Recorded(w, e), id, Resolved); }
  }

  lemma ResolvedNow(worlds: seq<World>, events: seq<Event>, c: Config, k: nat, id: Id)
    requires EarnedRun(worlds, events, c) && k < |events| && !InState(worlds[k], id, Resolved) && InState(worlds[k + 1], id, Resolved)
    requires Mitigated(worlds[k + 1], id) || id in worlds[k + 1].journal.recovered
    ensures ResolvedBy(worlds, events, k, id)
  {
    RunEvidenced(worlds, events, c, k + 1);
  }

  lemma {:induction false} FirstResolved(worlds: seq<World>, events: seq<Event>, c: Config, n: nat, id: Id)
    requires EarnedRun(worlds, events, c) && n <= |events| && InState(worlds[n], id, Resolved)
    ensures exists k :: 0 <= k < n && ResolvedBy(worlds, events, k, id)
    decreases n
  {
    var k := n - 1;
    if InState(worlds[k], id, Resolved) {
      FirstResolved(worlds, events, c, k, id);
    } else {
      ResolvingStep(worlds[k], worlds[n], events[k], c, id);
      ResolvedNow(worlds, events, c, k, id);
    }
  }

  /** An incident is RESOLVED only by a step that had the cause for it. */
  lemma ResolvedHasCause(worlds: seq<World>, events: seq<Event>, c: Config, n: nat, id: Id)
    requires Run(worlds, events, c) && n <= |events| && InState(worlds[n], id, Resolved)
    ensures exists k :: 0 <= k < n && ResolvedBy(worlds, events, k, id)
  {
    RunIsEarned(worlds, events, c);
    FirstResolved(worlds, events, c, n, id);
  }
}
