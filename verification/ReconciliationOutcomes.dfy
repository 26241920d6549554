/** What each segment of the reconciler and the decision handler promise their callers, in terms of the world before and
    after them. */
module ReconciliationOutcomes {
  import opened Options
  import opened DurableCore
  import opened IncidentRepository
  import opened Execution
  import opened Reconciliation
  import opened Decisions
  import opened ExecutionSegments
  import opened ReconcilerContinuity
  import OutboxRepository
  import Runs = ReconciliationRuns

  // ---------------------------------------------------------------- the reconciler

  /** A call touches one command, tells the provider nothing, and ends commands and incidents only on evidence that is
      on record; it waits, if at all, for the command that it reconciles. */
  ghost predicate Reconciles(w: World, v: World, id: Id, next: Option<Then>) {
    Earns(w, v) && Touches(w, v, id) && (next.Some? ==> Concerns(next.value, id))
  }

  lemma BeginReconciles(w: World, id: Id, s: Settings, rs: Retry, now: int, crash: Crash, r: Eff<Then>)
    requires w.actions.Filed() && r == Begin(w, id, s, rs, now, crash)
    ensures Reconciles(w, r.world, id, SeenThen(r))
  {
    BeginEarns(w, id, s, rs, now, crash);
    BeginTouches(w, id, s, rs, now, crash);
  }

  /** Another incident holds the resource, or the state of the command leaves nothing to find out. */
  predicate Idle(w: World, a: ActionCommand) {
    || (a.resourceKey in w.leases && w.leases[a.resourceKey].owned && w.leases[a.resourceKey].owner != a.incidentId)
    || !(a.state == OutcomeUnknown || a.state == ReconciliationRequired || a.state == Acknowledged)
  }

  /** The time since the last attempt, or since the request when there was none, or the attempts are used up. */
  predicate OutOfTime(a: ActionCommand, count: nat, rs: Retry, now: int) {
    || (if a.lastAttemptAt.Some? && a.lastAttemptAt.value != 0 then a.lastAttemptAt.value else a.requestedAt) + rs.deadlineSeconds <= now
    || rs.maxAttempts <= count
  }

  /** The provider can be asked for the state of this resource. */
  predicate Readable(a: ActionCommand, s: Settings) {
    && (a.commandType == QodPlan || a.commandType == GeofencePlan) && a.providerResourceId.Some?
    && (s.mode == Fixture || ((s.mode == LiveReadOnly || s.mode == LiveWrite) && s.adapterLive))
  }

  /** Its next attempt is due: none was made yet, or the last one found nothing to verify and its backoff is over. */
  ghost predicate ReadIsDue(w: World, a: ActionCommand, rs: Retry, now: int) {
    var rows := Attempts(w, a.commandId);
    rows == [] || (rows[|rows| - 1].outcome != ProviderAvailable && rows[|rows| - 1].updatedAt + Backoff(Count(rows), rs) <= now)
  }

  /** When a call does what, for a command whose incident is known: nothing while it is idle or has been escalated, an
      escalation when it is out of time, a read exactly when one is due and possible, and likewise a verification. */
  ghost predicate Considers(w: World, v: World, id: Id, s: Settings, rs: Retry, now: int, crash: Crash,
                            next: Option<Then>) {
    if id !in w.actions.byId || w.actions.byId[id].incidentId !in w.incidents.items then v == w && next == None
    else
      var a, rows := w.actions.byId[id], Attempts(w, w.actions.byId[id].commandId);
      var escalated, late := rows != [] && rows[|rows| - 1].terminal, OutOfTime(a, Count(rows), rs, now);
      && (Idle(w, a) || escalated ==> v == w && next == Some(Stop))
      && (!Idle(w, a) && !escalated && late ==> Escalates(w, v, a, next))
      && (if !Idle(w, a) && !escalated && !late && ReadIsDue(w, a, rs, now) && Readable(a, s) && crash != BeforeRead
          then v == w && next == Some(AwaitRead(a, Count(rows) + 1)) else !(next.Some? && next.value.AwaitRead?))
      && (if !Idle(w, a) && !escalated && !late && ReverifyIsDue(w, a, rs, now) && Readable(a, s)
          then Reopens(w, v, a, Count(rows), next, now) else !(next.Some? && next.value.AwaitReverify?))
  }

  /** A verification of this attempt is on record and found nothing out. */
  predicate Undecided(w: World, id: Id, attempt: nat) {
    Reverify(id, attempt) in w.checks && w.checks[Reverify(id, attempt)].state == InsufficientEvidence
  }

  /** The last attempt found the resource, and its backoff is over if a verification of it found nothing out. */
  ghost predicate ReverifyIsDue(w: World, a: ActionCommand, rs: Retry, now: int) {
    var rows, count := Attempts(w, a.commandId), Count(Attempts(w, a.commandId));
    && rows != [] && rows[|rows| - 1].outcome == ProviderAvailable
    && (Undecided(w, a.commandId, count) ==> w.checks[Reverify(a.commandId, count)].updatedAt + Backoff(count, rs) <= now)
  }

  /** The verification begins: of an uncertain command it is acknowledged first, and after one that found nothing out
      a new attempt is opened. */
  ghost predicate Reopens(w: World, v: World, a: ActionCommand, count: nat, next: Option<Then>, now: int) {
    var id, again := a.commandId, Undecided(w, a.commandId, count);
    && id in v.actions.byId && next == Some(AwaitReverify(v.actions.byId[id], if again then count + 1 else count))
    && v == w.(actions := v.actions, attempts := v.attempts)
    && (if a.state == Acknowledged then v.actions == w.actions else Becomes(a, v.actions.byId[id], Acknowledged, a.providerResourceId))
    && (if again then SavedAs(w, v, a, count + 1, ProviderAvailable, now) else v.attempts == w.attempts)
  }

  /** What the work status says of the command. */
  ghost predicate StatusMeans(w: World, a: ActionCommand, rs: Retry, now: int, status: Status, rows: seq<ReadRecord>) {
    var eligible := a.state == OutcomeUnknown || a.state == ReconciliationRequired || a.state == Acknowledged;
    var escalated, late := rows != [] && rows[|rows| - 1].terminal, OutOfTime(a, Count(rows), rs, now);
    && (status.Terminal? || status.NotEligible? <==> !eligible) && (status.EscalatedAlready? <==> eligible && escalated)
    && (status.DeadlineReached? <==> eligible && !escalated && late)
    && (status.Due? <==> eligible && !escalated && !late && ReadIsDue(w, a, rs, now))
    && (status.ReadyForReverification? <==> eligible && !escalated && !late && ReverifyIsDue(w, a, rs, now))
  }

  lemma WorkStatusMeans(w: World, a: ActionCommand, rs: Retry, now: int)
    ensures StatusMeans(w, a, rs, now, WorkStatus(w, a, rs, now), Attempts(w, a.commandId))
  {}

  /** What the status asks for. */
  ghost predicate Asks(w: World, r: Eff<Then>, a: ActionCommand, status: Status, count: nat, s: Settings, now: int,
                       crash: Crash) {
    && (status.Terminal? || status.NotEligible? || status.EscalatedAlready? || status.InBackoff? ==> r == Ok(w, Stop))
    && (status.DeadlineReached? ==> r == SaveTerminalEscalation(w, a, count, now))
    && (if status.Due? && Readable(a, s) && crash != BeforeRead then r == Ok(w, AwaitRead(a, count + 1)) else !(r.Ok? && r.value.AwaitRead?))
    && (if status.ReadyForReverification? && Readable(a, s) then Reopens(w, r.world, a, count, SeenThen(r), now)
        else !(r.Ok? && r.value.AwaitReverify?))
  }

  lemma ActAsks(w: World, a: ActionCommand, status: Status, count: nat, s: Settings, now: int, crash: Crash)
    requires w.actions.Filed() && a.commandId in w.actions.byId && w.actions.byId[a.commandId] == a
    requires status.ReadyForReverification? ==> a.state == Acknowledged || Uncertain(a.state)
    ensures Asks(w, Act(w, a, status, count, s, now, crash), a, status, count, s, now, crash)
  {
    ReadableExactly(a, s);
    match status
    case DeadlineReached => EscalationStops(w, a, count, now);
    case ReadyForReverification => BeginReverifyAsks(w, a, count, s, now, crash);
    case Due => UnreadableStops(w, a, count + 1, now, if crash.BeforePersist? then NoCrash else crash);
    case _ =>
  }

  lemma ReadableExactly(a: ActionCommand, s: Settings)
    ensures CanRead(a, s) <==> Readable(a, s)
  {}

  lemma EscalationStops(w: World, a: ActionCommand, count: nat, now: int)
    ensures var r := SaveTerminalEscalation(w, a, count, now); r.Ok? ==> r.value == Stop
  {}

  lemma BeginReverifyAsks(w: World, a: ActionCommand, count: nat, s: Settings, now: int, crash: Crash)
    requires w.actions.Filed() && a.commandId in w.actions.byId && w.actions.byId[a.commandId] == a
    requires a.state == Acknowledged || Uncertain(a.state)
    ensures var r := BeginReverify(w, a, count, s, now, crash);
            if Readable(a, s) then Reopens(w, r.world, a, count, SeenThen(r), now) else r.Ok? ==> r.value.Stop?
  {
    if Uncertain(a.state) {
      var u := Rewrite(w, a.commandId, Acknowledged, None, now);
      RewriteIs(w, a.commandId, Acknowledged, None, now);
      assert u.value.commandType == a.commandType && u.value.incidentId == a.incidentId && u.value.commandId == a.commandId;
      ReverifyingAsks(u.world, u.value, count, s, now, crash);
    } else {
      ReverifyingAsks(w, a, count, s, now, crash);
    }
  }

  lemma ReverifyingAsks(w: World, a: ActionCommand, count: nat, s: Settings, now: int, crash: Crash)
    ensures var r := Reverifying(w, a, count, s, now, crash); var again := Undecided(w, a.commandId, count);
            if Readable(a, s) then
              && r == Ok(w.(attempts := r.world.attempts), AwaitReverify(a, if again then count + 1 else count))
              && (if again then SavedAs(w, r.world, a, count + 1, ProviderAvailable, now) else r.world == w)
            else r.Ok? ==> r.value.Stop?
  {
    ReadableExactly(a, s);
    var attempt := if Unproven(w, a.commandId, count) then count + 1 else count;
    var w1 := if Unproven(w, a.commandId, count) then SaveAttempt(w, a, attempt, ProviderAvailable, false, now) else w;
    UnavailableStops(w1, a, attempt, now, crash);
  }

  lemma UnavailableStops(w: World, a: ActionCommand, attempt: nat, now: int, crash: Crash)
    ensures var r := FinishReverify(w, a, attempt, Unavailable, now, crash); r.Ok? ==> r.value == Stop
  {}

  lemma UnreadableStops(w: World, a: ActionCommand, attempt: nat, now: int, crash: Crash)
    ensures var r := FinishRead(w, a, attempt, NoAnswer, now, crash); r.Ok? ==> r.value == Stop
  {}

  lemma AsksConsiders(w: World, id: Id, s: Settings, rs: Retry, now: int, crash: Crash, r: Eff<Then>, a: ActionCommand,
                      status: Status, rows: seq<ReadRecord>)
    requires id in w.actions.byId && w.actions.byId[id] == a && a.incidentId in w.incidents.items && rows == Attempts(w, a.commandId)
    requires !(a.resourceKey in w.leases && w.leases[a.resourceKey].owned && w.leases[a.resourceKey].owner != a.incidentId)
    requires StatusMeans(w, a, rs, now, status, rows) && Asks(w, r, a, status, Count(rows), s, now, crash)
    requires status.DeadlineReached? ==> Escalates(w, r.world, a, SeenThen(r))
    ensures Considers(w, r.world, id, s, rs, now, crash, SeenThen(r))
  {}

  lemma BeginConsiders(w: World, id: Id, s: Settings, rs: Retry, now: int, crash: Crash, r: Eff<Then>)
    requires w.actions.Filed() && r == Begin(w, id, s, rs, now, crash)
    ensures Considers(w, r.world, id, s, rs, now, crash, SeenThen(r))
  {
    if id in w.actions.byId && w.actions.byId[id].incidentId in w.incidents.items {
      var a := w.actions.byId[id];
      var rows := Attempts(w, a.commandId);
      if !(a.resourceKey in w.leases && w.leases[a.resourceKey].owned && w.leases[a.resourceKey].owner != a.incidentId) {
        WorkStatusMeans(w, a, rs, now);
        ActAsks(w, a, WorkStatus(w, a, rs, now), Count(rows), s, now, crash);
        SaveTerminalEscalates(w, a, Count(rows), now, SaveTerminalEscalation(w, a, Count(rows), now));
        AsksConsiders(w, id, s, rs, now, crash, r, a, WorkStatus(w, a, rs, now), rows);
      }
    }
  }

  /** What an answer is on record as. */
  predicate ReadAs(a: ActionCommand, answer: ReadAnswer, outcome: ReadOutcome) {
    && (outcome == ProviderAvailable <==> answer.Resource? && answer.phase == AvailablePhase)
    && (outcome == WaitingForProvider <==> answer.Resource? && answer.phase == PendingPhase)
    && (outcome == ProviderNotFound <==> answer == NoResource && a.providerResourceId.Some?)
    && (outcome == MalformedResponse <==> answer == Malformed)
    && outcome != ManualRequired
  }

  /** The answer of a read is on record, under its attempt number, before anything follows from it; it neither charges,
      calls nor resolves, and touches one command. */
  ghost predicate RecordsRead(w: World, v: World, a: ActionCommand, attempt: nat, answer: ReadAnswer,
                              next: Option<Then>,
                              now: int, crash: Crash) {
    && Keeps(w, v) && Touches(w, v, a.commandId)
    && if crash.BeforePersist? then v == w && next == None
       else
         && (exists outcome :: ReadAs(a, answer, outcome) && SavedAs(w, v, a, attempt, outcome, now))
         && if crash.AfterPersist? then v == w.(attempts := v.attempts) && next == None else ActsOn(w, v, a, attempt, answer, next)
  }

  ghost predicate SavedAs(w: World, v: World, a: ActionCommand, attempt: nat, outcome: ReadOutcome, now: int) {
    RowsOf(v, a.commandId) == SaveRow(RowsOf(w, a.commandId), ReadRecord(a.commandId, a.incidentId, attempt, outcome, false, now))
  }

  /** What follows from an answer, for a command that is stored.  Only a resource in use lets its verification begin,
      and acknowledges a command that was uncertain; only the loss of a known resource fails the command and hands its
      incident to an operator; otherwise an unknown outcome waits for reconciliation, and nothing else changes. */
  ghost predicate ActsOn(w: World, v: World, a: ActionCommand, attempt: nat, answer: ReadAnswer, next: Option<Then>) {
    a.commandId in w.actions.byId ==>
      var id, c := a.commandId, w.actions.byId[a.commandId];
      && id in v.actions.byId
      && if answer.Resource? && answer.phase == AvailablePhase then
           && v.incidents == w.incidents && next == Some(AwaitReverify(v.actions.byId[id], attempt))
           && if c.state == OutcomeUnknown || c.state == ReconciliationRequired
              then Becomes(c, v.actions.byId[id], Acknowledged, answer.resource.Or(c.providerResourceId)) else v.actions == w.actions
         else if answer == NoResource && a.providerResourceId.Some? then
           && Becomes(c, v.actions.byId[id], ActionState.Failed, c.providerResourceId)
           && if a.incidentId in w.incidents.items then next == Some(Stop) && GoesToOperator(w, v, a.incidentId, RecoveryRequired) else next == None
         else
           && v.incidents == w.incidents && next == Some(Stop)
           && if c.state == OutcomeUnknown then Becomes(c, v.actions.byId[id], ReconciliationRequired, c.providerResourceId)
              else v.actions == w.actions
  }

  predicate Becomes(c: ActionCommand, d: ActionCommand, state: ActionState, resource: Option<Id>) {
    d.state == state && d.providerResourceId == resource && d.version == c.version + 1
  }

  /** An incident that was being worked on is ESCALATED, and says why. */
  predicate GoesToOperator(w: World, v: World, incident: Id, why: IncidentOutcome) {
    && incident in w.incidents.items && incident in v.incidents.items && v.incidents.items[incident].outcome == why
    && var before := w.incidents.items[incident].state;
       v.incidents.items[incident].state == if before.Approved? || before.Mitigating? || before.Verifying? then Escalated else before
  }

  lemma ReadAsClassified(a: ActionCommand, answer: ReadAnswer)
    ensures ReadAs(a, answer, Classify(a, answer))
  {}

  lemma RewriteIs(w: World, id: Id, state: ActionState, rid: Option<Id>, now: int)
    requires w.actions.Filed() && id in w.actions.byId
    ensures var r := Rewrite(w, id, state, rid, now);
            && r.Ok? && r.world == w.(actions := r.world.actions) && id in r.world.actions.byId && r.world.actions.byId[id] == r.value
            && Becomes(w.actions.byId[id], r.value, state, rid.Or(w.actions.byId[id].providerResourceId))
  {}

  lemma ResourceGoneIs(w: World, a: ActionCommand, now: int)
    requires w.actions.Filed() && a.commandId in w.actions.byId
    ensures var r := ResourceGone(w, a, now);
            && r.world.attempts == w.attempts && a.commandId in r.world.actions.byId
            && Becomes(w.actions.byId[a.commandId], r.world.actions.byId[a.commandId], ActionState.Failed,
                       w.actions.byId[a.commandId].providerResourceId)
            && if a.incidentId in w.incidents.items then r == Ok(r.world, Stop) && GoesToOperator(w, r.world, a.incidentId, RecoveryRequired)
               else r.Raised?
  {
    var u := Rewrite(w, a.commandId, ActionState.Failed, None, now);
    RewriteIs(w, a.commandId, ActionState.Failed, None, now);
    if a.incidentId in w.incidents.items {
      Runs.EscalateMoves(u.world, a.incidentId, now);
      EscalateAside(u.world, a.incidentId, now);
    }
  }

  lemma EscalateAside(w: World, incident: Id, now: int)
    ensures var v := EscalateIncident(w, incident, now); v == w.(incidents := v.incidents)
  {}

  lemma FollowActs(w: World, a: ActionCommand, attempt: nat, answer: ReadAnswer, now: int, r: Eff<Then>)
    requires w.actions.Filed() && a.commandId in w.actions.byId
    requires r == Follow(w, a, w.actions.byId[a.commandId], attempt, Classify(a, answer), answer, now)
    ensures ActsOn(w, r.world, a, attempt, answer, SeenThen(r)) && r.world.attempts == w.attempts
  {
    var c := w.actions.byId[a.commandId];
    ReadAsClassified(a, answer);
    match Classify(a, answer)
    case ProviderAvailable => AvailableActs(w, a, c, attempt, answer, now);
    case ProviderNotFound => ResourceGoneIs(w, a, now);
    case _ => RewriteIs(w, a.commandId, ReconciliationRequired, None, now);
  }

  lemma AvailableActs(w: World, a: ActionCommand, c: ActionCommand, attempt: nat, answer: ReadAnswer, now: int)
    requires w.actions.Filed() && a.commandId in w.actions.byId && c == w.actions.byId[a.commandId] && answer.Resource?
    ensures var r := Follow(w, a, c, attempt, ProviderAvailable, answer, now);
            && a.commandId in r.world.actions.byId && r.world.attempts == w.attempts && r.world.incidents == w.incidents
            && r == Ok(r.world, AwaitReverify(r.world.actions.byId[a.commandId], attempt))
            && if c.state == OutcomeUnknown || c.state == ReconciliationRequired
               then Becomes(c, r.world.actions.byId[a.commandId], Acknowledged, answer.resource.Or(c.providerResourceId))
               else r.world.actions == w.actions
  {
    RewriteIs(w, a.commandId, Acknowledged, answer.resource.Or(c.providerResourceId), now);
  }

  /** The caller's view of a result. */
  function SeenThen(r: Eff<Then>): Option<Then> { if r.Ok? then Some(r.value) else None }

  lemma FollowKeepsRows(w: World, a: ActionCommand, current: ActionCommand, attempt: nat, outcome: ReadOutcome,
                        answer: ReadAnswer, now: int)
    requires outcome.ProviderAvailable? ==> answer.Resource?
    ensures Follow(w, a, current, attempt, outcome, answer, now).world.attempts == w.attempts
  {
    match outcome
    case ProviderNotFound => GoneKeepsRows(w, a, now);
    case ProviderAvailable => RewriteKeepsRows(w, a.commandId, Acknowledged, answer.resource.Or(current.providerResourceId), now);
    case _ => RewriteKeepsRows(w, a.commandId, ReconciliationRequired, None, now);
  }

  lemma RewriteKeepsRows(w: World, id: Id, state: ActionState, rid: Option<Id>, now: int)
    ensures Rewrite(w, id, state, rid, now).world.attempts == w.attempts
  {}

  lemma GoneKeepsRows(w: World, a: ActionCommand, now: int)
    ensures ResourceGone(w, a, now).world.attempts == w.attempts
  {
    var r := Rewrite(w, a.commandId, ActionState.Failed, None, now);
    RewriteKeepsRows(w, a.commandId, ActionState.Failed, None, now);
    if r.Ok? { EscalateAside(r.world, a.incidentId, now); }
  }

  lemma SavedRead(w: World, a: ActionCommand, attempt: nat, answer: ReadAnswer, now: int, v: World)
    requires v.attempts == SaveAttempt(w, a, attempt, Classify(a, answer), false, now).attempts
    ensures exists outcome :: ReadAs(a, answer, outcome) && SavedAs(w, v, a, attempt, outcome, now)
  {
    ReadAsClassified(a, answer);
    assert SavedAs(w, v, a, attempt, Classify(a, answer), now);
  }

  lemma FinishReadRecords(w: World, a: ActionCommand, attempt: nat, answer: ReadAnswer, now: int, crash: Crash,
                          r: Eff<Then>)
    requires w.actions.Filed() && r == FinishRead(w, a, attempt, answer, now, crash)
    ensures RecordsRead(w, r.world, a, attempt, answer, SeenThen(r), now, crash)
  {
    FinishReadKeeps(w, a, attempt, answer, now, crash);
    FinishReadTouches(w, a, attempt, answer, now, crash);
    if !crash.BeforePersist? {
      var w1 := SaveAttempt(w, a, attempt, Classify(a, answer), false, now);
      if !crash.AfterPersist? {
        FollowKeepsRows(w1, a, if a.commandId in w1.actions.byId then w1.actions.byId[a.commandId] else a, attempt, Classify(a, answer), answer, now);
        if a.commandId in w.actions.byId {
          FollowActs(w1, a, attempt, answer, now, r);
          ActsAside(w, w1, r.world, a, attempt, answer, SeenThen(r));
        }
      }
      SavedRead(w, a, attempt, answer, now, r.world);
    }
  }

  lemma ActsAside(w: World, w1: World, v: World, a: ActionCommand, attempt: nat, answer: ReadAnswer, next: Option<Then>)
    requires w1 == w.(attempts := w1.attempts) && ActsOn(w1, v, a, attempt, answer, next)
    ensures ActsOn(w, v, a, attempt, answer, next)
  {}

  /** The state under which the reconciler records a verdict: a present resource alone proves nothing. */
  predicate ReverifiedAs(verdict: VerifyAnswer, state: VerificationState) {
    && (state == Improved <==> verdict == VerifyAnswer.VerifiedImproved) && (state == Unchanged <==> verdict == NoImprovement)
    && (state == Degraded <==> verdict == VerifiedDegraded)
    && (state == InsufficientEvidence <==> verdict == VerifiedResource || verdict == Unavailable)
  }

  /** A re-verification is on record before anything follows from it, and what follows has its evidence on record. */
  ghost predicate RecordsCheck(w: World, v: World, a: ActionCommand, attempt: nat, verdict: VerifyAnswer,
                               next: Option<Then>,
                               now: int, crash: Crash) {
    var id, improved := Reverify(a.commandId, attempt), verdict == VerifyAnswer.VerifiedImproved;
    && Earns(Proven(w, id, a.incidentId, improved, improved, now), v) && Touches(w, v, a.commandId)
    && id in v.checks && v.checks[id] == Check(a.incidentId, v.checks[id].state, improved, now) && ReverifiedAs(verdict, v.checks[id].state)
    && (a.incidentId in w.incidents.items && !crash.AfterReverify? ==>
        a.incidentId in v.incidents.items && v.incidents.items[a.incidentId].verification == v.checks[id].state)
    && if crash.AfterReverify? || a.incidentId !in w.incidents.items then v.actions == w.actions && next == None
       else a.commandId in w.actions.byId ==> Settles(w, v, a, verdict, next)
  }

  /** What follows from a re-verification: proven the command is SUCCESS, refuted it is to be rolled back, which a row
      asks for, and otherwise it waits for reconciliation. */
  ghost predicate Settles(w: World, v: World, a: ActionCommand, verdict: VerifyAnswer, next: Option<Then>)
    requires a.commandId in w.actions.byId
  {
    var id, c := a.commandId, w.actions.byId[a.commandId];
    && next == Some(Stop) && id in v.actions.byId
    && match verdict
       case VerifiedImproved => Becomes(c, v.actions.byId[id], Success, c.providerResourceId)
       case NoImprovement => Becomes(c, v.actions.byId[id], RollbackRequired, c.providerResourceId) && AsksForRollback(w, v, a)
       case VerifiedDegraded => Becomes(c, v.actions.byId[id], RollbackRequired, c.providerResourceId) && AsksForRollback(w, v, a)
       case _ =>
         if c.state == ReconciliationRequired then v.actions == w.actions
         else Becomes(c, v.actions.byId[id], ReconciliationRequired, c.providerResourceId)
  }

  /** The row that wakes the executor for the rollback, unless it was there already. */
  ghost predicate AsksForRollback(w: World, v: World, a: ActionCommand) {
    var id := OutboxRepository.OutRollback(a.commandId);
    id in v.outbox && (id in w.outbox || v.outbox[id].kind == OutboxRepository.ActionExecutionReady)
  }

  lemma ConcludeSettles(w: World, a: ActionCommand, verdict: VerifyAnswer, now: int, r: Eff<Then>)
    requires w.actions.Filed() && a.incidentId in w.incidents.items && a.commandId in w.actions.byId
    requires r == Conclude(w, a, ReverificationOf(verdict), now)
    ensures Settles(w, r.world, a, verdict, SeenThen(r))
  {
    match verdict
    case VerifiedImproved => ProvenSettles(w, a, now);
    case NoImprovement => RewriteIs(w, a.commandId, RollbackRequired, None, now);
    case VerifiedDegraded => RewriteIs(w, a.commandId, RollbackRequired, None, now);
    case _ => RewriteIs(w, a.commandId, ReconciliationRequired, None, now);
  }

  lemma ProvenSettles(w: World, a: ActionCommand, now: int)
    requires w.actions.Filed() && a.incidentId in w.incidents.items && a.commandId in w.actions.byId
    ensures var r := Conclude(w, a, Improved, now); Settles(w, r.world, a, VerifyAnswer.VerifiedImproved, SeenThen(r))
  {
    var u := Rewrite(w, a.commandId, Success, None, now);
    RewriteIs(w, a.commandId, Success, None, now);
    GateKeepsActions(u.world, u.value.incidentId, u.value.planVersion, now);
  }

  lemma GateKeepsActions(w: World, incident: Id, plan: int, now: int)
    ensures MaybeResolve(w, incident, plan, now).actions == w.actions
  {}

  lemma ConcludeKeepsChecks(w: World, a: ActionCommand, state: VerificationState, now: int)
    requires a.incidentId in w.incidents.items
    ensures Conclude(w, a, state, now).world.checks == w.checks
  {}

  lemma ConcludeDisplays(w: World, a: ActionCommand, state: VerificationState, now: int)
    requires w.actions.Filed() && a.incidentId in w.incidents.items && w.incidents.items[a.incidentId].verification == state
    ensures var v := Conclude(w, a, state, now).world;
            a.incidentId in v.incidents.items && v.incidents.items[a.incidentId].verification == state
  {
    if !state.Improved? {
      UnprovenDisplays(w, a, state, now);
    } else if a.commandId in w.actions.byId {
      var u := Rewrite(w, a.commandId, Success, None, now);
      RewriteIs(w, a.commandId, Success, None, now);
      GateDisplays(u.world, u.value.incidentId, u.value.planVersion, now, a.incidentId);
    }
  }

  lemma UnprovenDisplays(w: World, a: ActionCommand, state: VerificationState, now: int)
    requires a.incidentId in w.incidents.items && !state.Improved?
    ensures Conclude(w, a, state, now).world.incidents == w.incidents
  {}

  lemma GateDisplays(w: World, incident: Id, plan: int, now: int, id: Id)
    requires id in w.incidents.items && w.incidents.items[id].verification == Improved
    ensures var v := MaybeResolve(w, incident, plan, now); id in v.incidents.items && v.incidents.items[id].verification == Improved
  {
    var moved := MoveIncidentFrom(w, incident, Verifying, Resolved, now);
    assert id in moved.incidents.items && moved.incidents.items[id].verification == Improved;
  }

  lemma ReverifiedAsRead(verdict: VerifyAnswer)
    ensures ReverifiedAs(verdict, ReverificationOf(verdict))
  {}

  /** The record of a re-verification, and the incident's field for it. */
  lemma ReverdictAside(w: World, a: ActionCommand, attempt: nat, verdict: VerifyAnswer, state: VerificationState,
                       now: int)
    ensures var w1 := SaveCheck(w, Reverify(a.commandId, attempt), a.incidentId, verdict, state, now);
            var w2 := WriteIncident(w1, a.incidentId, Some(state), None, None, now);
            && w1.actions == w.actions && w1.incidents == w.incidents && w2.world == w1.(incidents := w2.world.incidents)
            && (w2.Ok? <==> a.incidentId in w.incidents.items)
            && (w2.Ok? ==> a.incidentId in w2.world.incidents.items && w2.world.incidents.items[a.incidentId].verification == state)
            && w1.outbox == w.outbox && Reverify(a.commandId, attempt) in w1.checks
            && w1.checks[Reverify(a.commandId, attempt)] == Check(a.incidentId, state, verdict == VerifyAnswer.VerifiedImproved, now)
  {}

  lemma FinishReverifyRecords(w: World, a: ActionCommand, attempt: nat, verdict: VerifyAnswer, now: int, crash: Crash,
                              r: Eff<Then>)
    requires w.actions.Filed() && r == FinishReverify(w, a, attempt, verdict, now, crash)
    ensures RecordsCheck(w, r.world, a, attempt, verdict, SeenThen(r), now, crash)
  {
    var state := ReverificationOf(verdict);
    FinishReverifyEarns(w, a, attempt, verdict, now, crash);
    FinishReverifyTouches(w, a, attempt, verdict, now, crash);
    ReverifiedAsRead(verdict);
    ReverdictAside(w, a, attempt, verdict, state, now);
    var w1 := SaveCheck(w, Reverify(a.commandId, attempt), a.incidentId, verdict, state, now);
    var w2 := WriteIncident(w1, a.incidentId, Some(state), None, None, now);
    if w2.Ok? && !crash.AfterReverify? {
      ConcludeKeepsChecks(w2.world, a, state, now);
      ConcludeDisplays(w2.world, a, state, now);
      if a.commandId in w.actions.byId {
        ConcludeSettles(w2.world, a, verdict, now, r);
        SettlesAside(w, w2.world, r.world, a, verdict, SeenThen(r));
      }
    }
  }

  lemma SettlesAside(w: World, w2: World, v: World, a: ActionCommand, verdict: VerifyAnswer, next: Option<Then>)
    requires a.commandId in w2.actions.byId && w2.actions == w.actions && w2.outbox == w.outbox && Settles(w2, v, a, verdict, next)
    ensures Settles(w, v, a, verdict, next)
  {}

  /** An escalation is recorded once; it marks the incident for manual reconciliation, and an incident that was being
      worked on goes to an operator. */
  ghost predicate Escalates(w: World, v: World, a: ActionCommand, next: Option<Then>) {
    && Keeps(w, v) && Touches(w, v, a.commandId)
    && (if exists r <- RowsOf(w, a.commandId) :: r.terminal then v == w else next.Some? ==> MarkedManual(w, v, a))
  }

  /** The terminal marker is on record, and the incident waits for an operator. */
  ghost predicate MarkedManual(w: World, v: World, a: ActionCommand) {
    && (exists r <- RowsOf(v, a.commandId) :: r.terminal)
    && a.incidentId in w.incidents.items && a.incidentId in v.incidents.items
    && v.incidents.items[a.incidentId].outcome.ManualReconciliationRequired?
    && v.incidents.items[a.incidentId].verification == InsufficientEvidence
    && v.incidents.items[a.incidentId].state ==
       if Runs.BeingWorkedOn(w.incidents.items[a.incidentId].state) then IncidentState.Escalated
       else w.incidents.items[a.incidentId].state
  }

  lemma {:induction false} SavedRowIsThere(rows: seq<ReadRecord>, r: ReadRecord)
    ensures r in SaveRow(rows, r)
  {
    if rows != [] && !SameRow(rows[0], r) { SavedRowIsThere(rows[1..], r); }
  }

  lemma HandOverKeepsRows(w: World, incident: Id, now: int)
    ensures HandOver(w, incident, now).world.attempts == w.attempts
  {}

  lemma HandedOver(w: World, incident: Id, now: int)
    requires incident in w.incidents.items
    ensures var v := HandOver(w, incident, now).world;
            && incident in v.incidents.items && v.incidents.items[incident].outcome.ManualReconciliationRequired?
            && v.incidents.items[incident].verification == InsufficientEvidence
            && v.incidents.items[incident].state ==
               if Runs.BeingWorkedOn(w.incidents.items[incident].state) then IncidentState.Escalated else w.incidents.items[incident].state
  {
    Runs.EscalateMoves(w, incident, now);
  }

  lemma SaveTerminalEscalates(w: World, a: ActionCommand, count: nat, now: int, r: Eff<Then>)
    requires r == SaveTerminalEscalation(w, a, count, now)
    ensures Escalates(w, r.world, a, if r.Ok? then Some(r.value) else None)
  {
    SaveTerminalEscalationKeeps(w, a, count, now);
    SaveTerminalTouches(w, a, count, now);
    if !(exists r <- RowsOf(w, a.commandId) :: r.terminal) && a.incidentId in w.incidents.items {
      HandOverMarks(w, a, count, now, SaveAttempt(w, a, count, ManualRequired, true, now));
    }
  }

  lemma HandOverMarks(w: World, a: ActionCommand, count: nat, now: int, w1: World)
    requires w1 == SaveAttempt(w, a, count, ManualRequired, true, now) && a.incidentId in w.incidents.items
    ensures MarkedManual(w, HandOver(w1, a.incidentId, now).world, a)
  {
    MarkIsThere(w, a, count, now, w1);
    HandOverKeepsRows(w1, a.incidentId, now);
    HandedOver(w1, a.incidentId, now);
  }

  lemma MarkIsThere(w: World, a: ActionCommand, count: nat, now: int, w1: World)
    requires w1 == SaveAttempt(w, a, count, ManualRequired, true, now)
    ensures exists r <- RowsOf(w1, a.commandId) :: r.terminal
  {
    var row := ReadRecord(a.commandId, a.incidentId, count, ManualRequired, true, now);
    SavedRowIsThere(RowsOf(w, a.commandId), row);
    assert row in RowsOf(w1, a.commandId);
  }

  // ---------------------------------------------------------------- the decision handler

  /** The verdict's commands are what the creation loop builds for the next plan of its incident. */
  ghost predicate Planned(w: World, v: Verdict) {
    && v.incidentId in w.incidents.items
    && PlanCommands(w.actions, v.commands, v.incidentId, w.incidents.items[v.incidentId].planVersion + 1)
  }

  /** A delivered decision charges, calls and resolves nothing; it changes nothing exactly when `ChangesNothing` says
      so; and when it took effect the incident shows it, under the next plan version. */
  ghost predicate DecidesOn(w: World, u: World, v: Verdict, ok: bool)
    requires !v.decision.Undecided?
  {
    && (u == w <==> ChangesNothing(w, v))
    && (Planned(w, v) ==> Keeps(w, u))
    && ShowsDecision(w, u, v, ok)
  }

  /** What an incident says of the decision on it. */
  predicate Announces(i: Incident, d: WardenDecision) {
    && i.warden == d
    && match d
       case Allow => i.state == Approved && i.outcome == AuthorizedPlan
       case Block => i.state == Blocked && i.outcome == PlanBlocked
       case Escalate => i.state == Escalated && i.outcome == PlanEscalated
       case Undecided => false
  }

  /** The row of the decision, which is PENDING for its consumer when it is new. */
  predicate HasDecisionRow(w: World, u: World, incident: Id, plan: int) {
    var id := OutboxRepository.OutDecision(incident, plan);
    && id in u.outbox
    && (id !in w.outbox ==>
        u.outbox[id].kind == OutboxRepository.DecisionReady && u.outbox[id].state == OutboxRepository.RowState.Pending && u.outbox[id].owner == None)
  }

  lemma CommitShows(w: World, v: Verdict, now: int)
    requires !v.decision.Undecided? && v.incidentId in w.incidents.items
    ensures var r := Commit(w, v, now);
            && (r.Raised? ==> r.world == w)
            && (r.Ok? ==>
                && v.incidentId in r.world.incidents.items
                && var j := r.world.incidents.items[v.incidentId];
                   && Announces(j, v.decision) && j.planVersion == w.incidents.items[v.incidentId].planVersion + 1
                   && HasDecisionRow(w, r.world, v.incidentId, j.planVersion))
  {
    if CanAdvance(w.incidents.items[v.incidentId].state, TargetOf(v.decision)) {
      AdvanceReaches(w.incidents, v.incidentId, TargetOf(v.decision), now);
    }
  }

  /** The incident's side of a delivery. */
  ghost predicate ShowsDecision(w: World, u: World, v: Verdict, ok: bool)
    requires !v.decision.Undecided?
  {
    && (ok ==> v.incidentId in w.incidents.items && v.incidentId in u.incidents.items)
    && (ok && !AlreadyDecided(w.incidents.items[v.incidentId]) ==>
        && Announces(u.incidents.items[v.incidentId], v.decision)
        && u.incidents.items[v.incidentId].planVersion == w.incidents.items[v.incidentId].planVersion + 1
        && HasDecisionRow(w, u, v.incidentId, u.incidents.items[v.incidentId].planVersion))
    && (!ok ==> u.incidents == w.incidents && u.outbox == w.outbox)
  }

  lemma FreshShows(w: World, v: Verdict, now: int)
    requires w.actions.Filed() && !v.decision.Undecided? && v.incidentId in w.incidents.items
    requires !AlreadyDecided(w.incidents.items[v.incidentId]) && !Stale(w.incidents.items[v.incidentId], v)
    ensures ShowsDecision(w, Decide(w, v, now).world, v, Decide(w, v, now).Ok?)
  {
    FreshDelivery(w, v, now);
    CommitShows(if v.decision.Allow? then w.(actions := CreateAll(w.actions, v.commands)) else w, v, now);
  }

  lemma OtherShows(w: World, v: Verdict, now: int)
    requires w.actions.Filed() && !v.decision.Undecided?
    requires v.incidentId !in w.incidents.items || AlreadyDecided(w.incidents.items[v.incidentId]) || Stale(w.incidents.items[v.incidentId], v)
    ensures ShowsDecision(w, Decide(w, v, now).world, v, Decide(w, v, now).Ok?)
  {}

  lemma DecideDecides(w: World, v: Verdict, now: int)
    requires w.actions.Filed() && !v.decision.Undecided?
    ensures var r := Decide(w, v, now); DecidesOn(w, r.world, v, r.Ok?)
  {
    DeliveryChangesNothingExactly(w, v, now);
    if Planned(w, v) {
      DecideKeeps(w, v, now);
    }
    if v.incidentId !in w.incidents.items || AlreadyDecided(w.incidents.items[v.incidentId]) || Stale(w.incidents.items[v.incidentId], v) {
      OtherShows(w, v, now);
    } else {
      FreshShows(w, v, now);
    }
  }
}
