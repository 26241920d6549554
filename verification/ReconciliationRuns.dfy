/** Whole runs of the reconciler on one command, in any surroundings: at most two reads an attempt, at most
    `maxAttempts` attempts spaced by the backoff, no provider mutation, and nothing after the escalation.

    One consumer handles rows one at a time, so a call of `reconcile_action` runs from its begin to its
    end, or to the point where the process dies; between calls anything may happen. */
module ReconciliationRuns {
  import opened Options
  import opened DurableCore
  import opened IncidentRepository
  import opened Execution
  import opened Reconciliation
  import Handlers = HandlerContinuity
  import Sorting = StableSort

  // ---------------------------------------------------------------- one whole call

  datatype Answers = Answers(read: ReadAnswer, verdict: VerifyAnswer)

  /** The instants at which the call writes, and where it dies, if it does. */
  datatype Course = Course(begun: int, read: int, verified: int, crash: Crash, diesVerifying: bool)
  {
    predicate Ordered() { begun <= read <= verified }
    predicate Completes() { crash.NoCrash? && !diesVerifying }
  }

  datatype Outcome = Outcome(world: World, readCount: nat, completed: bool)

  /** `reconcile_action`, with the number of adapter reads it made. */
  function Call(w: World, id: Id, s: Settings, rs: Retry, ans: Answers, c: Course): Outcome {
    Continue(Begin(w, id, s, rs, c.begun, c.crash), ans, c)
  }

  /** The call from its first await on, if it has one. */
  function Continue(first: Eff<Then>, ans: Answers, c: Course): Outcome {
    match first
    case Raised(w1) => Outcome(w1, 0, false)
    case Ok(w1, Stop) => Outcome(w1, 0, true)
    case Ok(w1, AwaitReverify(a, attempt)) => Verifying(w1, a, attempt, ans, c, 0)
    case Ok(w1, AwaitRead(a, attempt)) => Reading(w1, a, attempt, ans, c)
  }

  /** From `adapter.reconcile` on. */
  function Reading(w: World, a: ActionCommand, attempt: nat, ans: Answers, c: Course): Outcome {
    AfterRead(FinishRead(w, a, attempt, ans.read, c.read, c.crash), ans, c)
  }

  /** From the recorded read on. */
  function AfterRead(recorded: Eff<Then>, ans: Answers, c: Course): Outcome {
    match recorded
    case Raised(w1) => Outcome(w1, 1, false)
    case Ok(w1, AwaitReverify(b, n)) => Verifying(w1, b, n, ans, c, 1)
    case Ok(w1, _) => Outcome(w1, 1, true)
  }

  /** From `adapter.verify` on. */
  function Verifying(w: World, a: ActionCommand, attempt: nat, ans: Answers, c: Course, before: nat): Outcome {
    if c.diesVerifying then Outcome(w, before + 1, false)
    else match FinishReverify(w, a, attempt, ans.verdict, c.verified, c.crash)
      case Raised(w1) => Outcome(w1, before + 1, false)
      case Ok(w1, _) => Outcome(w1, before + 1, true)
  }

  // ---------------------------------------------------------------- what a segment leaves alone

  /** The command `id` stays what it is but for its state and provider resource, its incident stays
      known, and the provider is told nothing. */
  ghost predicate Steady(w: World, v: World, id: Id)
    requires id in w.actions.byId
  {
    && id in v.actions.byId
    && var c, d := w.actions.byId[id], v.actions.byId[id];
    && d.commandId == c.commandId && d.incidentId == c.incidentId && d.requestedAt == c.requestedAt
       && d.lastAttemptAt == c.lastAttemptAt
    && (c.incidentId in w.incidents.items ==> c.incidentId in v.incidents.items)
    && v.journal.calls == w.journal.calls
  }

  ghost predicate SameRecords(w: World, v: World) { v.attempts == w.attempts && v.checks == w.checks }

  /** The command is stored, its incident is known, and it has been attempted. */
  ghost predicate Known(w: World, id: Id) {
    && id in w.actions.byId && w.actions.byId[id].commandId == id && w.actions.byId[id].incidentId in w.incidents.items
    && !w.actions.byId[id].state.Ready?
  }

  lemma RewriteSteady(w: World, id: Id, state: ActionState, rid: Option<Id>, now: int)
    requires Known(w, id) && !state.Sent? && !state.Ready?
    ensures var r := Rewrite(w, id, state, rid, now);
            && r.Ok? && Steady(w, r.world, id) && SameRecords(w, r.world) && Known(r.world, id)
            && r.value == r.world.actions.byId[id] && r.value.state == state && r.world == w.(actions := r.world.actions)
  {}

  lemma MoveSteady(w: World, id: Id, incident: Id, from: IncidentState, to: IncidentState, now: int)
    requires Known(w, id) && CanMove(from, to)
    ensures var v := MoveIncidentFrom(w, incident, from, to, now);
            && Steady(w, v, id) && SameRecords(w, v) && Known(v, id) && v.actions == w.actions
            && (incident in w.incidents.items ==> incident in v.incidents.items)
  {}

  lemma EscalateSteady(w: World, id: Id, incident: Id, now: int)
    requires Known(w, id)
    ensures var v := EscalateIncident(w, incident, now);
            && Steady(w, v, id) && SameRecords(w, v) && Known(v, id) && v.actions == w.actions
            && (incident in w.incidents.items ==> incident in v.incidents.items)
  {
    var w1 := MoveIncidentFrom(w, incident, Approved, Mitigating, now);
    var w2 := MoveIncidentFrom(w1, incident, Mitigating, IncidentState.Verifying, now);
    MoveSteady(w, id, incident, Approved, Mitigating, now);
    MoveSteady(w1, id, incident, Mitigating, IncidentState.Verifying, now);
    MoveSteady(w2, id, incident, IncidentState.Verifying, IncidentState.Escalated, now);
  }

  lemma WriteSteady(w: World, id: Id, incident: Id, v: Option<VerificationState>, o: Option<IncidentOutcome>, now: int)
    requires Known(w, id) && incident in w.incidents.items
    ensures var r := WriteIncident(w, incident, v, o, None, now);
            && r.Ok? && Steady(w, r.world, id) && SameRecords(w, r.world) && Known(r.world, id)
            && r.world.actions == w.actions && incident in r.world.incidents.items
  {}

  lemma ResourceGoneSteady(w: World, a: ActionCommand, now: int)
    requires Known(w, a.commandId) && w.actions.byId[a.commandId] == a
    ensures var r := ResourceGone(w, a, now);
            && r.Ok? && Steady(w, r.world, a.commandId) && SameRecords(w, r.world) && Known(r.world, a.commandId) && r.value.Stop?
  {
    RewriteSteady(w, a.commandId, ActionState.Failed, None, now);
    var w1 := Rewrite(w, a.commandId, ActionState.Failed, None, now).world;
    EscalateSteady(w1, a.commandId, a.incidentId, now);
    WriteSteady(EscalateIncident(w1, a.incidentId, now), a.commandId, a.incidentId, None, Some(RecoveryRequired), now);
  }

  lemma FollowSteady(w: World, a: ActionCommand, attempt: nat, outcome: ReadOutcome, answer: ReadAnswer, now: int)
    requires Known(w, a.commandId) && w.actions.byId[a.commandId] == a && (outcome.ProviderAvailable? ==> answer.Resource?)
    ensures var r := Follow(w, a, a, attempt, outcome, answer, now);
            && r.Ok? && Steady(w, r.world, a.commandId) && SameRecords(w, r.world) && Known(r.world, a.commandId)
            && (if outcome.ProviderAvailable? then r.value == AwaitReverify(r.world.actions.byId[a.commandId], attempt) else r.value.Stop?)
  {
    if outcome.ProviderAvailable? {
      AvailableSteady(w, a, attempt, answer, now);
    } else if outcome.ProviderNotFound? {
      ResourceGoneSteady(w, a, now);
      assert Follow(w, a, a, attempt, outcome, answer, now) == ResourceGone(w, a, now);
    } else {
      UncertainSteady(w, a, attempt, outcome, answer, now);
    }
  }

  lemma AvailableSteady(w: World, a: ActionCommand, attempt: nat, answer: ReadAnswer, now: int)
    requires Known(w, a.commandId) && w.actions.byId[a.commandId] == a && answer.Resource?
    ensures var r := Follow(w, a, a, attempt, ProviderAvailable, answer, now);
            && r.Ok? && Steady(w, r.world, a.commandId) && SameRecords(w, r.world) && Known(r.world, a.commandId)
            && r.value == AwaitReverify(r.world.actions.byId[a.commandId], attempt)
  {
    RewriteSteady(w, a.commandId, Acknowledged, answer.resource.Or(a.providerResourceId), now);
  }

  lemma UncertainSteady(w: World, a: ActionCommand, attempt: nat, outcome: ReadOutcome, answer: ReadAnswer, now: int)
    requires Known(w, a.commandId) && w.actions.byId[a.commandId] == a && !outcome.ProviderAvailable? && !outcome.ProviderNotFound?
    ensures var r := Follow(w, a, a, attempt, outcome, answer, now);
            && r.Ok? && Steady(w, r.world, a.commandId) && SameRecords(w, r.world) && Known(r.world, a.commandId) && r.value.Stop?
  {
    RewriteSteady(w, a.commandId, ReconciliationRequired, None, now);
  }

  lemma MaybeResolveSteady(w: World, id: Id, incident: Id, plan: int, now: int)
    requires Known(w, id)
    ensures var v := MaybeResolve(w, incident, plan, now);
            Steady(w, v, id) && SameRecords(w, v) && Known(v, id) && v.actions == w.actions
  {}

  /** A definite verdict settles the command. */
  predicate Definite(s: VerificationState) { s.Improved? || s.Unchanged? || s.Degraded? }

  lemma ConcludeSteady(w: World, a: ActionCommand, state: VerificationState, now: int)
    requires Known(w, a.commandId) && w.actions.byId[a.commandId].incidentId == a.incidentId
    ensures var r := Conclude(w, a, state, now);
            && r.Ok? && r.value.Stop? && Steady(w, r.world, a.commandId) && SameRecords(w, r.world) && Known(r.world, a.commandId)
            && (Definite(state) ==> Handlers.Settled(r.world.actions.byId[a.commandId].state))
  {
    var id := a.commandId;
    if state.Improved? {
      RewriteSteady(w, id, Success, None, now);
      var r := Rewrite(w, id, Success, None, now);
      MaybeResolveSteady(r.world, id, r.value.incidentId, r.value.planVersion, now);
    } else if state.Unchanged? || state.Degraded? {
      RewriteSteady(w, id, RollbackRequired, None, now);
    } else {
      RewriteSteady(w, id, ReconciliationRequired, None, now);
    }
  }

  lemma FinishReverifySteady(w: World, a: ActionCommand, attempt: nat, v: VerifyAnswer, now: int, crash: Crash)
    requires Known(w, a.commandId) && w.actions.byId[a.commandId].incidentId == a.incidentId
    ensures var r := FinishReverify(w, a, attempt, v, now, crash);
            && Steady(w, r.world, a.commandId) && Known(r.world, a.commandId) && r.world.attempts == w.attempts
            && r.world.checks == w.checks[Reverify(a.commandId, attempt) := Check(a.incidentId, ReverificationOf(v),
                                                                                  v.VerifiedImproved?, now)]
            && (r.Raised? ==> !crash.NoCrash?) && (r.Ok? ==> r.value.Stop?)
            && (r.Ok? && Definite(ReverificationOf(v)) ==> Handlers.Settled(r.world.actions.byId[a.commandId].state))
  {
    var w1 := SaveCheck(w, Reverify(a.commandId, attempt), a.incidentId, v, ReverificationOf(v), now);
    WriteSteady(w1, a.commandId, a.incidentId, Some(ReverificationOf(v)), None, now);
    var w2 := WriteIncident(w1, a.incidentId, Some(ReverificationOf(v)), None, None, now).world;
    ConcludeSteady(w2, a, ReverificationOf(v), now);
  }

  // ---------------------------------------------------------------- the rows of a command

  /** Attempts 1, 2, .. in the order of time, then possibly the terminal marker. */
  ghost predicate WellFormed(rows: seq<ReadRecord>, now: int) {
    && (forall i :: 0 <= i < |rows| ==>
        && rows[i].updatedAt <= now && (rows[i].terminal ==> i == |rows| - 1)
        && rows[i].attempt == if rows[i].terminal then i else i + 1)
    && (forall i, j :: 0 <= i < j < |rows| ==> rows[i].updatedAt <= rows[j].updatedAt)
  }

  predicate Ended(rows: seq<ReadRecord>) { rows != [] && rows[|rows| - 1].terminal }

  lemma AttemptsAreRows(w: World, id: Id, now: int)
    requires WellFormed(RowsOf(w, id), now)
    ensures Attempts(w, id) == RowsOf(w, id)
  {
    Sorting.SortOfSorted(RowsOf(w, id), EarlierRow);
  }

  lemma {:induction false} CountIsLength(rows: seq<ReadRecord>, now: int)
    requires WellFormed(rows, now)
    ensures Count(rows) == if Ended(rows) then |rows| - 1 else |rows|
  {
    if rows != [] {
      var rest := rows[..|rows| - 1];
      assert forall i :: 0 <= i < |rest| ==> rest[i] == rows[i] && !rest[i].terminal;
      CountIsLength(rest, now);
    }
  }

  lemma {:induction false} SaveAppends(rows: seq<ReadRecord>, r: ReadRecord)
    requires forall i :: 0 <= i < |rows| ==> !SameRow(rows[i], r)
    ensures SaveRow(rows, r) == rows + [r]
  {
    if rows != [] {
      SaveAppends(rows[1..], r);
      assert rows == [rows[0]] + rows[1..];
    }
  }

  /** Each attempt waited for the backoff after the one before it, and began before the deadline. */
  ghost predicate Spaced(rows: seq<ReadRecord>, rs: Retry, deadline: int) {
    forall i, j :: 0 <= i < j < |rows| && j == i + 1 && !rows[j].terminal ==>
      rows[i].updatedAt + Backoff(j, rs) <= rows[j].updatedAt && rows[i].updatedAt + Backoff(j, rs) < deadline
  }

  /** Every re-verification belongs to a recorded attempt and is no older than it. */
  ghost predicate Checked(w: World, id: Id, now: int) {
    forall k: nat :: Reverify(id, k) in w.checks ==>
      && 1 <= k <= |RowsOf(w, id)| && !RowsOf(w, id)[k - 1].terminal
      && RowsOf(w, id)[k - 1].updatedAt <= w.checks[Reverify(id, k)].updatedAt <= now
  }

  /** The records of a command are filed under its incident. */
  ghost predicate OwnRows(w: World, id: Id)
    requires id in w.actions.byId
  {
    forall i :: 0 <= i < |RowsOf(w, id)| ==> RowsOf(w, id)[i].incidentId == w.actions.byId[id].incidentId
  }

  ghost predicate Inv(w: World, id: Id, rs: Retry, deadline: int, now: int) {
    && Known(w, id) && Deadline(w.actions.byId[id], rs) == deadline
    && WellFormed(RowsOf(w, id), now) && Spaced(RowsOf(w, id), rs, deadline) && Checked(w, id, now)
    && Count(RowsOf(w, id)) <= rs.maxAttempts && OwnRows(w, id)
  }

  /** A provider observation is on record whose verification has not been found insufficient. */
  predicate Open(w: World, id: Id) {
    var rows := RowsOf(w, id);
    rows != [] && !Ended(rows) && rows[|rows| - 1].outcome.ProviderAvailable? && !Unproven(w, id, |rows|)
  }

  /** The reads that are left: two for each attempt not yet made, one for an open observation. */
  function Budget(w: World, id: Id, rs: Retry): int {
    2 * (rs.maxAttempts - Count(RowsOf(w, id))) + (if Open(w, id) then 1 else 0)
  }

  lemma WellFormedGrows(rows: seq<ReadRecord>, r: ReadRecord, before: int)
    requires WellFormed(rows, before) && !Ended(rows) && before <= r.updatedAt && !r.terminal && r.attempt == |rows| + 1
    ensures WellFormed(rows + [r], r.updatedAt) && !Ended(rows + [r])
  {}

  lemma SpacedGrows(rows: seq<ReadRecord>, r: ReadRecord, rs: Retry, deadline: int)
    requires Spaced(rows, rs, deadline)
    requires rows != [] ==>
               rows[|rows| - 1].updatedAt + Backoff(|rows|, rs) <= r.updatedAt && rows[|rows| - 1].updatedAt + Backoff(|rows|, rs) < deadline
    ensures Spaced(rows + [r], rs, deadline)
  {}

  /** One more attempt, after the backoff and before the deadline. */
  lemma RowsGrow(rows: seq<ReadRecord>, r: ReadRecord, rs: Retry, deadline: int, before: int, begun: int)
    requires WellFormed(rows, before) && Spaced(rows, rs, deadline) && !Ended(rows)
    requires before <= begun <= r.updatedAt && !r.terminal && r.attempt == |rows| + 1
    requires rows != [] ==> rows[|rows| - 1].updatedAt + Backoff(|rows|, rs) <= begun && rows[|rows| - 1].updatedAt + Backoff(|rows|, rs) < deadline
    ensures WellFormed(rows + [r], r.updatedAt) && Spaced(rows + [r], rs, deadline) && !Ended(rows + [r])
    ensures SaveRow(rows, r) == rows + [r] && Count(rows + [r]) == Count(rows) + 1 == |rows| + 1
  {
    WellFormedGrows(rows, r, before);
    SpacedGrows(rows, r, rs, deadline);
    SaveAppends(rows, r);
    CountIsLength(rows, before);
    assert (rows + [r])[..|rows|] == rows;
  }

  lemma RowAdded(w: World, v: World, id: Id, outcome: ReadOutcome, rs: Retry, deadline: int, before: int, begun: int,
                 now: int)
    requires Inv(w, id, rs, deadline, before) && before <= begun <= now && !Ended(RowsOf(w, id)) && |RowsOf(w, id)| < rs.maxAttempts
    requires Known(v, id) && Steady(w, v, id) && v.checks == w.checks
    requires v.attempts == SaveAttempt(w, w.actions.byId[id], |RowsOf(w, id)| + 1, outcome, false, now).attempts
    requires var rows := RowsOf(w, id);
             rows != [] ==> rows[|rows| - 1].updatedAt + Backoff(|rows|, rs) <= begun && rows[|rows| - 1].updatedAt + Backoff(|rows|, rs) < deadline
    ensures RowsOf(v, id) == RowsOf(w, id) + [ReadRecord(id, w.actions.byId[id].incidentId, |RowsOf(w, id)| + 1, outcome, false, now)]
    ensures Inv(v, id, rs, deadline, now) && !Ended(RowsOf(v, id)) && Count(RowsOf(v, id)) == Count(RowsOf(w, id)) + 1
  {
    var rows := RowsOf(w, id);
    var r := ReadRecord(id, w.actions.byId[id].incidentId, |rows| + 1, outcome, false, now);
    RowsGrow(rows, r, rs, deadline, before, begun);
    assert RowsOf(v, id) == rows + [r];
    forall k: nat | Reverify(id, k) in v.checks
      ensures 1 <= k <= |rows| && (rows + [r])[k - 1] == rows[k - 1]
    {}
  }

  lemma CheckAdded(w: World, v: World, id: Id, check: Check, rs: Retry, deadline: int, now: int)
    requires Inv(w, id, rs, deadline, now) && RowsOf(w, id) != [] && !Ended(RowsOf(w, id)) && now <= check.updatedAt
    requires Known(v, id) && Steady(w, v, id) && v.attempts == w.attempts
    requires v.checks == w.checks[Reverify(id, |RowsOf(w, id)|) := check]
    ensures Inv(v, id, rs, deadline, check.updatedAt)
  {}

  lemma StillInv(w: World, v: World, id: Id, rs: Retry, deadline: int, before: int, now: int)
    requires Inv(w, id, rs, deadline, before) && before <= now && Known(v, id) && Steady(w, v, id) && SameRecords(w, v)
    ensures Inv(v, id, rs, deadline, now) && Budget(v, id, rs) == Budget(w, id, rs)
  {}

  // ---------------------------------------------------------------- one call

  predicate Conflict(w: World, id: Id)
    requires id in w.actions.byId
  {
    var a := w.actions.byId[id];
    a.resourceKey in w.leases && w.leases[a.resourceKey].owned && w.leases[a.resourceKey].owner != a.incidentId
  }

  /** Settled, or escalated to an operator: there is nothing left to reconcile. */
  predicate Quiet(w: World, id: Id)
    requires id in w.actions.byId
  {
    Handlers.Settled(w.actions.byId[id].state) || Ended(RowsOf(w, id))
  }

  /** What a call that made `n` reads did to the budget. */
  ghost predicate Spent(w: World, o: Outcome, id: Id, rs: Retry)
    requires id in o.world.actions.byId
  {
    && Budget(o.world, id, rs) <= Budget(w, id, rs)
    && (|| o.readCount + Budget(o.world, id, rs) <= Budget(w, id, rs) + (if o.completed then 0 else 1)
        || (o.readCount + Budget(o.world, id, rs) <= Budget(w, id, rs) + 1 && Quiet(o.world, id) && Open(o.world, id)))
  }

  /** The part from `adapter.verify` on, of an attempt that is the last on record. */
  lemma VerifyingSpends(w: World, id: Id, ans: Answers, c: Course, before: nat, rs: Retry, deadline: int, now: int)
    requires Inv(w, id, rs, deadline, now) && Open(w, id) && now <= c.verified
    ensures var o := Verifying(w, w.actions.byId[id], |RowsOf(w, id)|, ans, c, before);
            && Inv(o.world, id, rs, deadline, c.verified) && Steady(w, o.world, id)
            && o.readCount == before + 1 && o.world.attempts == w.attempts && (c.Completes() ==> o.completed)
            && Budget(o.world, id, rs) <= Budget(w, id, rs)
            && (o.completed ==> Budget(o.world, id, rs) < Budget(w, id, rs) || (Quiet(o.world, id) && Open(o.world, id)))
  {
    var a := w.actions.byId[id];
    var n := |RowsOf(w, id)|;
    if !c.diesVerifying {
      FinishReverifySteady(w, a, n, ans.verdict, c.verified, c.crash);
      var v := FinishReverify(w, a, n, ans.verdict, c.verified, c.crash).world;
      CheckAdded(w, v, id, v.checks[Reverify(id, n)], rs, deadline, now);
    }
  }

  /** A recorded read, and what it leads to. */
  lemma ReadIs(w: World, a: ActionCommand, n: nat, answer: ReadAnswer, now: int, crash: Crash, w1: World)
    requires a.commandId in w.actions.byId && w.actions.byId[a.commandId] == a && !crash.BeforePersist?
    requires w1 == SaveAttempt(w, a, n, Classify(a, answer), false, now)
    ensures FinishRead(w, a, n, answer, now, crash) ==
            if crash.AfterPersist? then Raised(w1) else Follow(w1, a, a, n, Classify(a, answer), answer, now)
  {}

  /** What may be said of the answer of a read once it is on record as the next attempt. */
  ghost predicate AddsRead(w: World, id: Id, r: Eff<Then>, rs: Retry, deadline: int, now: int)
    requires id in w.actions.byId
  {
    && Inv(r.world, id, rs, deadline, now) && Steady(w, r.world, id) && RowsOf(w, id) <= RowsOf(r.world, id)
    && Count(RowsOf(r.world, id)) == Count(RowsOf(w, id)) + 1 && |RowsOf(r.world, id)| == |RowsOf(w, id)| + 1
       && !Ended(RowsOf(r.world, id))
    && (r.Ok? ==> if Open(r.world, id) then r.value == AwaitReverify(r.world.actions.byId[id],
                                                                     |RowsOf(r.world, id)|) else r.value.Stop?)
  }

  lemma FollowingAdds(w: World, w1: World, id: Id, answer: ReadAnswer, rs: Retry, deadline: int, now: int)
    requires id in w.actions.byId && Steady(w, w1, id) && Inv(w1, id, rs, deadline, now) && RowsOf(w1, id) != []
             && !Ended(RowsOf(w1, id))
    requires Count(RowsOf(w1, id)) == Count(RowsOf(w, id)) + 1 && |RowsOf(w1, id)| == |RowsOf(w, id)| + 1
             && RowsOf(w, id) <= RowsOf(w1, id)
    requires var n := |RowsOf(w1, id)|;
             RowsOf(w1, id)[n - 1].outcome == Classify(w1.actions.byId[id], answer) && !Unproven(w1, id, n)
    ensures var a := w1.actions.byId[id];
            var r := Follow(w1, a, a, |RowsOf(w1, id)|, Classify(a, answer), answer, now);
            r.Ok? && AddsRead(w, id, r, rs, deadline, now)
  {
    var a := w1.actions.byId[id];
    var n := |RowsOf(w1, id)|;
    FollowSteady(w1, a, n, Classify(a, answer), answer, now);
    FollowedAdds(w, w1, Follow(w1, a, a, n, Classify(a, answer), answer, now), id, Classify(a, answer), rs, deadline, now);
  }

  /** The answer of `adapter.reconcile` goes on record as the next attempt. */
  lemma FinishReadAdds(w: World, id: Id, answer: ReadAnswer, rs: Retry, deadline: int, before: int, begun: int,
                       now: int, crash: Crash)
    requires Inv(w, id, rs, deadline, before) && before <= begun <= now && !Ended(RowsOf(w, id)) && |RowsOf(w, id)| < rs.maxAttempts
    requires var rows := RowsOf(w, id);
             rows != [] ==> rows[|rows| - 1].updatedAt + Backoff(|rows|, rs) <= begun && rows[|rows| - 1].updatedAt + Backoff(|rows|, rs) < deadline
    requires !crash.BeforePersist?
    ensures var r := FinishRead(w, w.actions.byId[id], |RowsOf(w, id)| + 1, answer, now, crash);
            AddsRead(w, id, r, rs, deadline, now) && (r.Raised? <==> crash.AfterPersist?)
  {
    var a := w.actions.byId[id];
    var n := |RowsOf(w, id)| + 1;
    var w1 := SaveAttempt(w, w.actions.byId[id], n, Classify(a, answer), false, now);
    RowAdded(w, w1, id, Classify(a, answer), rs, deadline, before, begun, now);
    ReadIs(w, a, n, answer, now, crash, w1);
    FollowingAdds(w, w1, id, answer, rs, deadline, now);
  }

  /** What the record of an attempt leads to keeps it. */
  lemma FollowedAdds(w: World, w1: World, e: Eff<Then>, id: Id, outcome: ReadOutcome, rs: Retry, deadline: int,
                     now: int)
    requires id in w.actions.byId && Steady(w, w1, id) && Inv(w1, id, rs, deadline, now) && RowsOf(w1, id) != []
             && !Ended(RowsOf(w1, id))
    requires RowsOf(w1, id)[|RowsOf(w1, id)| - 1].outcome == outcome && !Unproven(w1, id, |RowsOf(w1, id)|)
    requires e.Ok? && Steady(w1, e.world, id) && SameRecords(w1, e.world) && Known(e.world, id)
    requires if outcome.ProviderAvailable? then e.value == AwaitReverify(e.world.actions.byId[id], |RowsOf(w1, id)|) else e.value.Stop?
    ensures Inv(e.world, id, rs, deadline, now) && Steady(w, e.world, id) && RowsOf(e.world, id) == RowsOf(w1, id)
    ensures if Open(e.world, id) then e.value == AwaitReverify(e.world.actions.byId[id], |RowsOf(w1, id)|) else e.value.Stop?
  {
    StillInv(w1, e.world, id, rs, deadline, now, now);
  }

  /** What the status of a call says about the records. */
  lemma StatusFacts(w: World, id: Id, rs: Retry, deadline: int, before: int, now: int)
    requires Inv(w, id, rs, deadline, before)
    ensures var rows := RowsOf(w, id); var status := WorkStatus(w, w.actions.byId[id], rs, now);
            && Attempts(w, id) == rows && Count(rows) == (if Ended(rows) then |rows| - 1 else |rows|)
            && (Quiet(w, id) ==> status.Terminal? || status.NotEligible? || status.EscalatedAlready?)
            && (status.Due? || status.ReadyForReverification? ==> !Ended(rows) && now < deadline && |rows| < rs.maxAttempts)
            && (status.Due? ==> !Open(w, id) && (rows != [] ==> rows[|rows| - 1].updatedAt + Backoff(|rows|, rs) <= now))
            && (status.ReadyForReverification? ==>
                && rows != [] && rows[|rows| - 1].outcome.ProviderAvailable?
                && (Unproven(w, id, |rows|) ==> w.checks[Reverify(id, |rows|)].updatedAt + Backoff(|rows|, rs) <= now))
  {
    AttemptsAreRows(w, id, before);
    CountIsLength(RowsOf(w, id), before);
  }

  /** The next attempt is allowed now. */
  ghost predicate MayAttempt(w: World, id: Id, rs: Retry, deadline: int, begun: int) {
    var rows := RowsOf(w, id);
    && !Ended(rows) && |rows| < rs.maxAttempts && !Open(w, id)
    && (rows != [] ==> rows[|rows| - 1].updatedAt + Backoff(|rows|, rs) <= begun && rows[|rows| - 1].updatedAt + Backoff(|rows|, rs) < deadline)
  }

  /** The whole effect of a call that was allowed to make an attempt, or to verify one. */
  ghost predicate Pays(w: World, o: Outcome, id: Id, rs: Retry, deadline: int, c: Course)
    requires id in w.actions.byId
  {
    && Inv(o.world, id, rs, deadline, c.verified) && Steady(w, o.world, id) && Spent(w, o, id, rs)
       && RowsOf(w, id) <= RowsOf(o.world, id)
    && (c.Completes() ==> o.completed && (Budget(o.world, id, rs) < Budget(w, id, rs) || Quiet(o.world, id)))
  }

  /** The attempt on record says that there is nothing to verify, or the process died. */
  lemma RecordedPays(w: World, v: World, id: Id, rs: Retry, c: Course, deadline: int, completed: bool)
    requires id in w.actions.byId && Steady(w, v, id) && Inv(v, id, rs, deadline, c.read) && c.Ordered()
    requires RowsOf(w, id) <= RowsOf(v, id)
    requires Count(RowsOf(v, id)) == Count(RowsOf(w, id)) + 1 && !Open(w, id) && (completed ==> !Open(v, id))
             && (c.Completes() ==> completed)
    ensures Pays(w, Outcome(v, 1, completed), id, rs, deadline, c)
  {
    StillInv(v, v, id, rs, deadline, c.read, c.verified);
  }

  /** The attempt on record says that the resource is there. */
  lemma OpenPays(w: World, v: World, id: Id, rs: Retry, ans: Answers, c: Course, deadline: int)
    requires id in w.actions.byId && Steady(w, v, id) && Inv(v, id, rs, deadline, c.read) && c.Ordered()
    requires RowsOf(w, id) <= RowsOf(v, id)
    requires Count(RowsOf(v, id)) == Count(RowsOf(w, id)) + 1 && !Open(w, id) && Open(v, id)
    ensures Pays(w, Verifying(v, v.actions.byId[id], |RowsOf(v, id)|, ans, c, 1), id, rs, deadline, c)
  {
    VerifyingSpends(v, id, ans, c, 1, rs, deadline, c.read);
  }

  lemma AfterReadPays(w: World, id: Id, e: Eff<Then>, rs: Retry, ans: Answers, c: Course, deadline: int)
    requires id in w.actions.byId && Steady(w, e.world, id) && Inv(e.world, id, rs, deadline, c.read) && c.Ordered()
    requires RowsOf(w, id) <= RowsOf(e.world, id)
    requires Count(RowsOf(e.world, id)) == Count(RowsOf(w, id)) + 1 && !Open(w, id) && (c.Completes() ==> e.Ok?)
    requires e.Ok? ==> if Open(e.world, id) then e.value == AwaitReverify(e.world.actions.byId[id], |RowsOf(e.world, id)|) else e.value.Stop?
    ensures Pays(w, AfterRead(e, ans, c), id, rs, deadline, c)
  {
    if e.Ok? && Open(e.world, id) {
      OpenPays(w, e.world, id, rs, ans, c, deadline);
    } else {
      RecordedPays(w, e.world, id, rs, c, deadline, e.Ok?);
    }
  }

  lemma ReadingSpends(w: World, id: Id, rs: Retry, ans: Answers, c: Course, deadline: int, before: int)
    requires Inv(w, id, rs, deadline, before) && before <= c.begun && c.Ordered() && MayAttempt(w, id, rs, deadline, c.begun)
    ensures Pays(w, Reading(w, w.actions.byId[id], |RowsOf(w, id)| + 1, ans, c), id, rs, deadline, c)
  {
    if c.crash.BeforePersist? {
      StillInv(w, w, id, rs, deadline, before, c.verified);
    } else {
      FinishReadAdds(w, id, ans.read, rs, deadline, before, c.begun, c.read, c.crash);
      AfterReadPays(w, id, FinishRead(w, w.actions.byId[id], |RowsOf(w, id)| + 1, ans.read, c.read, c.crash), rs, ans, c, deadline);
    }
  }

  /** Without a read the attempt is recorded as unknown. */
  lemma UnreadSpends(w: World, id: Id, rs: Retry, ans: Answers, c: Course, deadline: int, before: int, crash: Crash)
    requires Inv(w, id, rs, deadline, before) && before <= c.begun && c.Ordered() && MayAttempt(w, id, rs, deadline, c.begun)
    requires !crash.BeforePersist? && (c.Completes() ==> crash.NoCrash?)
    ensures var o := Continue(FinishRead(w, w.actions.byId[id], |RowsOf(w, id)| + 1, NoAnswer, c.begun, crash), ans, c);
            && Inv(o.world, id, rs, deadline, c.verified) && Steady(w, o.world, id) && Spent(w, o, id, rs)
               && RowsOf(w, id) <= RowsOf(o.world, id)
            && (c.Completes() ==> o.completed && Budget(o.world, id, rs) < Budget(w, id, rs))
  {
    FinishReadAdds(w, id, NoAnswer, rs, deadline, before, c.begun, c.begun, crash);
    var r := FinishRead(w, w.actions.byId[id], |RowsOf(w, id)| + 1, NoAnswer, c.begun, crash);
    assert r.Raised? || r.value.Stop?;
    AddedPays(w, r, id, rs, c, deadline);
    assert Continue(r, ans, c) == Outcome(r.world, 0, r.Ok?);
  }

  /** An attempt on record that cost no read. */
  lemma AddedPays(w: World, r: Eff<Then>, id: Id, rs: Retry, c: Course, deadline: int)
    requires id in w.actions.byId && AddsRead(w, id, r, rs, deadline, c.begun) && c.Ordered()
             && (r.Ok? ==> r.value.Stop?) && !Open(w, id)
    ensures var o := Outcome(r.world, 0, r.Ok?);
            && Inv(o.world, id, rs, deadline, c.verified) && Steady(w, o.world, id) && Spent(w, o, id, rs)
               && RowsOf(w, id) <= RowsOf(o.world, id)
            && Budget(o.world, id, rs) < Budget(w, id, rs)
  {
    StillInv(r.world, r.world, id, rs, deadline, c.begun, c.verified);
  }

  lemma DueSpends(w: World, id: Id, s: Settings, rs: Retry, ans: Answers, c: Course, deadline: int, before: int)
    requires Inv(w, id, rs, deadline, before) && before <= c.begun && c.Ordered() && MayAttempt(w, id, rs, deadline, c.begun)
    ensures var o := Continue(Act(w, w.actions.byId[id], Due, |RowsOf(w, id)|, s, c.begun, c.crash), ans, c);
            Pays(w, o, id, rs, deadline, c)
  {
    if c.crash.BeforeRead? {
      StillInv(w, w, id, rs, deadline, before, c.verified);
    } else if CanRead(w.actions.byId[id], s) {
      ReadingSpends(w, id, rs, ans, c, deadline, before);
    } else {
      UnreadSpends(w, id, rs, ans, c, deadline, before, if c.crash.BeforePersist? then NoCrash else c.crash);
    }
  }

  /** A recorded observation may be verified now, under a new attempt number if the last verification proved nothing. */
  ghost predicate MayVerify(w: World, id: Id, rs: Retry, deadline: int, begun: int) {
    var rows := RowsOf(w, id);
    && rows != [] && !Ended(rows) && rows[|rows| - 1].outcome.ProviderAvailable? && |rows| < rs.maxAttempts && begun < deadline
    && (Unproven(w, id, |rows|) ==> w.checks[Reverify(id, |rows|)].updatedAt + Backoff(|rows|, rs) <= begun)
  }

  lemma ReverifyingSpends(w: World, id: Id, s: Settings, rs: Retry, ans: Answers, c: Course, deadline: int, before: int)
    requires Inv(w, id, rs, deadline, before) && before <= c.begun && c.Ordered() && MayVerify(w, id, rs, deadline, c.begun)
    ensures var o := Continue(Reverifying(w, w.actions.byId[id], |RowsOf(w, id)|, s, c.begun, c.crash), ans, c);
            Pays(w, o, id, rs, deadline, c)
  {
    var n := |RowsOf(w, id)|;
    var a := w.actions.byId[id];
    if Unproven(w, id, n) {
      var w1 := SaveAttempt(w, w.actions.byId[id], n + 1, ProviderAvailable, false, c.begun);
      RowAdded(w, w1, id, ProviderAvailable, rs, deadline, before, c.begun, c.begun);
      ObservedSpends(w1, id, s, rs, ans, c, deadline, c.begun);
      var next := if CanRead(a, s) then Ok(w1, AwaitReverify(a, n + 1)) else FinishReverify(w1, a, n + 1, Unavailable, c.begun, c.crash);
      PaysMore(w, w1, Continue(next, ans, c), id, rs, deadline, c, before);
    } else {
      ObservedSpends(w, id, s, rs, ans, c, deadline, before);
    }
  }

  /** A new attempt for an observation that proved nothing. */
  lemma PaysMore(w: World, w1: World, o: Outcome, id: Id, rs: Retry, deadline: int, c: Course, before: int)
    requires Inv(w, id, rs, deadline, before) && Inv(w1, id, rs, deadline, c.begun) && Steady(w, w1, id) && !Open(w, id)
             && Open(w1, id)
    requires RowsOf(w, id) <= RowsOf(w1, id) && Count(RowsOf(w1, id)) == Count(RowsOf(w, id)) + 1
    requires Pays(w1, o, id, rs, deadline, c)
    ensures Pays(w, o, id, rs, deadline, c)
  {}

  lemma ObservedSpends(w: World, id: Id, s: Settings, rs: Retry, ans: Answers, c: Course, deadline: int, before: int)
    requires Inv(w, id, rs, deadline, before) && before <= c.begun && c.Ordered() && Open(w, id)
    ensures var a := w.actions.byId[id]; var n := |RowsOf(w, id)|;
            var o := Continue(if CanRead(a, s) then Ok(w,
                                                       AwaitReverify(a, n)) else FinishReverify(w, a, n, Unavailable, c.begun, c.crash), ans, c);
            Pays(w, o, id, rs, deadline, c)
  {
    var a := w.actions.byId[id];
    var n := |RowsOf(w, id)|;
    StillInv(w, w, id, rs, deadline, before, c.begun);
    if CanRead(a, s) {
      VerifyingSpends(w, id, ans, c, 0, rs, deadline, c.begun);
    } else {
      UnreadablePays(w, id, rs, ans, c, deadline, before);
    }
  }

  /** A verification that cannot be read is recorded as insufficient. */
  lemma UnreadablePays(w: World, id: Id, rs: Retry, ans: Answers, c: Course, deadline: int, before: int)
    requires Inv(w, id, rs, deadline, before) && before <= c.begun && c.Ordered() && Open(w, id)
    ensures var r := FinishReverify(w, w.actions.byId[id], |RowsOf(w, id)|, Unavailable, c.begun, c.crash);
            Pays(w, Continue(r, ans, c), id, rs, deadline, c)
  {
    var a, n := w.actions.byId[id], |RowsOf(w, id)|;
    var r := FinishReverify(w, a, n, Unavailable, c.begun, c.crash);
    StillInv(w, w, id, rs, deadline, before, c.begun);
    FinishReverifySteady(w, a, n, Unavailable, c.begun, c.crash);
    CheckAdded(w, r.world, id, r.world.checks[Reverify(id, n)], rs, deadline, c.begun);
    assert Continue(r, ans, c) == Outcome(r.world, 0, r.Ok?);
    CheckedPays(w, r.world, id, rs, c, deadline, r.Ok?);
  }

  /** The verification on record proves nothing. */
  lemma CheckedPays(w: World, v: World, id: Id, rs: Retry, c: Course, deadline: int, completed: bool)
    requires id in w.actions.byId && Steady(w, v, id) && Inv(v, id, rs, deadline, c.begun) && c.Ordered()
    requires Open(w, id) && v.attempts == w.attempts && Unproven(v, id, |RowsOf(w, id)|) && (c.Completes() ==> completed)
    ensures Pays(w, Outcome(v, 0, completed), id, rs, deadline, c)
  {
    StillInv(v, v, id, rs, deadline, c.begun, c.verified);
  }

  lemma ReadySpends(w: World, id: Id, s: Settings, rs: Retry, ans: Answers, c: Course, deadline: int, before: int)
    requires Inv(w, id, rs, deadline, before) && before <= c.begun && c.Ordered() && MayVerify(w, id, rs, deadline, c.begun)
    ensures var o := Continue(BeginReverify(w, w.actions.byId[id], |RowsOf(w, id)|, s, c.begun, c.crash), ans, c);
            Pays(w, o, id, rs, deadline, c)
  {
    if Uncertain(w.actions.byId[id].state) {
      var w1 := Rewrite(w, id, Acknowledged, None, c.begun).world;
      RewriteSteady(w, id, Acknowledged, None, c.begun);
      StillInv(w, w1, id, rs, deadline, before, c.begun);
      ReverifyingSpends(w1, id, s, rs, ans, c, deadline, c.begun);
    } else {
      ReverifyingSpends(w, id, s, rs, ans, c, deadline, before);
    }
  }

  predicate BeingWorkedOn(s: IncidentState) { s.Approved? || s.Mitigating? || s.Verifying? }

  lemma EscalateMoves(w: World, incident: Id, now: int)
    requires incident in w.incidents.items
    ensures var v := EscalateIncident(w, incident, now);
            && incident in v.incidents.items
            && v.incidents.items[incident].state ==
               if BeingWorkedOn(w.incidents.items[incident].state) then IncidentState.Escalated else w.incidents.items[incident].state
  {
    var w1 := MoveIncidentFrom(w, incident, Approved, Mitigating, now);
    var w2 := MoveIncidentFrom(w1, incident, Mitigating, IncidentState.Verifying, now);
    MovedState(w, incident, Approved, Mitigating, now);
    MovedState(w1, incident, Mitigating, IncidentState.Verifying, now);
    MovedState(w2, incident, IncidentState.Verifying, IncidentState.Escalated, now);
  }

  lemma MovedState(w: World, incident: Id, from: IncidentState, to: IncidentState, now: int)
    requires CanMove(from, to) && incident in w.incidents.items
    ensures var v, was := MoveIncidentFrom(w, incident, from, to, now), w.incidents.items[incident].state;
            incident in v.incidents.items && v.incidents.items[incident].state == if was == from then to else was
  {}

  lemma EscalationSteady(w: World, a: ActionCommand, count: nat, now: int)
    requires Known(w, a.commandId) && w.actions.byId[a.commandId] == a
    requires forall r <- RowsOf(w, a.commandId) :: !r.terminal
    ensures var r := SaveTerminalEscalation(w, a, count, now);
            && r.Ok? && r.value.Stop? && Known(r.world, a.commandId) && Steady(w, r.world, a.commandId) && r.world.checks == w.checks
            && r.world.attempts == SaveAttempt(w, a, count, ManualRequired, true, now).attempts
  {
    var w1 := SaveAttempt(w, a, count, ManualRequired, true, now);
    EscalateSteady(w1, a.commandId, a.incidentId, now);
    WriteSteady(EscalateIncident(w1, a.incidentId, now), a.commandId, a.incidentId, Some(InsufficientEvidence),
                Some(ManualReconciliationRequired), now);
  }

  /** Past the deadline, or with all attempts used, the terminal marker goes on record. */
  lemma DeadlineEscalates(w: World, id: Id, rs: Retry, deadline: int, before: int, now: int)
    requires Inv(w, id, rs, deadline, before) && before <= now && !Ended(RowsOf(w, id))
    ensures var r := SaveTerminalEscalation(w, w.actions.byId[id], Count(RowsOf(w, id)), now);
            && r.Ok? && r.value.Stop? && Inv(r.world, id, rs, deadline, now) && Steady(w, r.world, id)
            && Ended(RowsOf(r.world, id)) && Count(RowsOf(r.world, id)) == Count(RowsOf(w, id)) && RowsOf(w, id) <= RowsOf(r.world, id)
  {
    var rows := RowsOf(w, id);
    CountIsLength(rows, before);
    var row := ReadRecord(id, w.actions.byId[id].incidentId, |rows|, ManualRequired, true, now);
    SaveAppends(rows, row);
    EndedRows(rows, row, rs, deadline, before);
    EscalationSteady(w, w.actions.byId[id], |rows|, now);
    var v := SaveTerminalEscalation(w, w.actions.byId[id], |rows|, now).world;
    assert RowsOf(v, id) == rows + [row];
    MarkedInv(w, v, id, rs, deadline, before, now);
  }

  lemma EndedRows(rows: seq<ReadRecord>, r: ReadRecord, rs: Retry, deadline: int, before: int)
    requires WellFormed(rows, before) && Spaced(rows, rs, deadline) && !Ended(rows)
    requires before <= r.updatedAt && r.terminal && r.attempt == |rows|
    ensures WellFormed(rows + [r], r.updatedAt) && Spaced(rows + [r], rs, deadline) && Ended(rows + [r])
    ensures Count(rows + [r]) == Count(rows)
  {
    MarkedCount(rows, r);
  }

  lemma MarkedCount(rows: seq<ReadRecord>, r: ReadRecord)
    requires r.terminal
    ensures Count(rows + [r]) == Count(rows)
  {
    assert (rows + [r])[..|rows|] == rows;
  }

  lemma MarkedInv(w: World, v: World, id: Id, rs: Retry, deadline: int, before: int, now: int)
    requires Inv(w, id, rs, deadline, before) && before <= now && Known(v, id) && Steady(w, v, id) && v.checks == w.checks
    requires |RowsOf(v, id)| == |RowsOf(w, id)| + 1 && RowsOf(w, id) == RowsOf(v, id)[..|RowsOf(w, id)|] && OwnRows(v, id)
    requires WellFormed(RowsOf(v, id), now) && Spaced(RowsOf(v, id), rs, deadline) && Count(RowsOf(v, id)) == Count(RowsOf(w, id))
    ensures Inv(v, id, rs, deadline, now)
  {
    forall k: nat | Reverify(id, k) in v.checks
      ensures 1 <= k <= |RowsOf(w, id)| && RowsOf(v, id)[k - 1] == RowsOf(w, id)[k - 1]
    {}
  }

  /** One call of `reconcile_action`.  It keeps the records in order, tells the provider to do nothing,
      pays for every read out of the budget, and, when it was due and ran to its end, leaves less budget
      or nothing to do.  Without being due it changes nothing and reads nothing. */
  lemma CallSpends(w: World, id: Id, s: Settings, rs: Retry, ans: Answers, c: Course, deadline: int, before: int)
    requires Inv(w, id, rs, deadline, before) && before <= c.begun && c.Ordered()
    ensures var o := Call(w, id, s, rs, ans, c);
            && Inv(o.world, id, rs, deadline, c.verified) && Steady(w, o.world, id) && Spent(w, o, id, rs)
               && RowsOf(w, id) <= RowsOf(o.world, id)
            && (!IsDue(w, id, rs, c.begun) ==> o == Outcome(w, 0, true))
            && (IsDue(w, id, rs, c.begun) && c.Completes() ==> o.completed && (Budget(o.world, id, rs) < Budget(w, id, rs) || Quiet(o.world, id)))
  {
    StatusFacts(w, id, rs, deadline, before, c.begun);
    var a := w.actions.byId[id];
    var status := WorkStatus(w, a, rs, c.begun);
    if !IsDue(w, id, rs, c.begun) {
      StillInv(w, w, id, rs, deadline, before, c.verified);
    } else if status.DeadlineReached? {
      EscalationSpends(w, id, s, rs, ans, c, deadline, before);
    } else if status.ReadyForReverification? {
      ReadySpends(w, id, s, rs, ans, c, deadline, before);
    } else {
      DueSpends(w, id, s, rs, ans, c, deadline, before);
    }
  }

  lemma EscalationSpends(w: World, id: Id, s: Settings, rs: Retry, ans: Answers, c: Course, deadline: int, before: int)
    requires Inv(w, id, rs, deadline, before) && before <= c.begun && c.Ordered() && !Ended(RowsOf(w, id))
    ensures var o := Continue(SaveTerminalEscalation(w, w.actions.byId[id], Count(RowsOf(w, id)), c.begun), ans, c);
            && Inv(o.world, id, rs, deadline, c.verified) && Steady(w, o.world, id) && Spent(w, o, id, rs)
               && RowsOf(w, id) <= RowsOf(o.world, id)
            && o.completed && o.readCount == 0 && Quiet(o.world, id)
  {
    DeadlineEscalates(w, id, rs, deadline, before, c.begun);
    var v := SaveTerminalEscalation(w, w.actions.byId[id], Count(RowsOf(w, id)), c.begun).world;
    StillInv(v, v, id, rs, deadline, c.begun, c.verified);
  }

  /** The reconciler has something to do with the command. */
  predicate IsDue(w: World, id: Id, rs: Retry, now: int)
    requires id in w.actions.byId
  {
    !Conflict(w, id) && var status := WorkStatus(w, w.actions.byId[id], rs, now);
    status.Due? || status.ReadyForReverification? || status.DeadlineReached?
  }

  // ---------------------------------------------------------------- runs

  datatype Step = Called(ans: Answers, course: Course) | Elsewhere

  /** What may happen between two calls: anything, except that only the reconciler writes the records of the command,
      its provider attempt is not repeated, and SUCCESS, FAILED, ROLLED_BACK and ROLLBACK_REQUIRED are not undone. */
  ghost predicate LeavesAlone(w: World, v: World, id: Id)
    requires Known(w, id)
  {
    && Known(v, id) && RowsOf(v, id) == RowsOf(w, id)
    && (forall k: nat :: (Reverify(id, k) in v.checks <==> Reverify(id, k) in w.checks)
                         && (Reverify(id, k) in w.checks ==> v.checks[Reverify(id, k)] == w.checks[Reverify(id, k)]))
    && v.actions.byId[id].incidentId == w.actions.byId[id].incidentId
    && v.actions.byId[id].requestedAt == w.actions.byId[id].requestedAt
    && v.actions.byId[id].lastAttemptAt == w.actions.byId[id].lastAttemptAt
    && (Handlers.Settled(w.actions.byId[id].state) ==> Handlers.Settled(v.actions.byId[id].state))
  }

  datatype Setting = Setting(id: Id, settings: Settings, retry: Retry, deadline: int)

  /** What a step did: the adapter reads it made, whether it was a call that died on the way, and whether
      it was a call that was due and had nothing to stop it. */
  datatype Tally = Tally(readCount: nat, died: bool, due: bool)

  function TallyOf(w: World, step: Step, g: Setting): Tally
    requires g.id in w.actions.byId
  {
    match step
    case Called(ans, c) =>
      var o := Call(w, g.id, g.settings, g.retry, ans, c);
      Tally(o.readCount, !o.completed, c.Completes() && IsDue(w, g.id, g.retry, c.begun))
    case Elsewhere => Tally(0, false, false)
  }

  /** A run from the moment the outcome became uncertain, nothing being on record yet; `at` are the
      instants between the steps, and time never runs backwards. */
  ghost predicate Run(worlds: seq<World>, steps: seq<Step>, tallies: seq<Tally>, at: seq<int>, g: Setting) {
    && |worlds| == |steps| + 1 == |at| == |tallies| + 1
    && Known(worlds[0], g.id) && Deadline(worlds[0].actions.byId[g.id], g.retry) == g.deadline
    && RowsOf(worlds[0], g.id) == [] && (forall k: nat :: Reverify(g.id, k) !in worlds[0].checks)
    && forall i, j :: 0 <= i < j < |worlds| && j == i + 1 ==> Moves(worlds[i], worlds[j], steps[i], tallies[i], at[i], at[j], g)
  }

  ghost predicate Moves(w: World, v: World, step: Step, t: Tally, before: int, after: int, g: Setting) {
    && Known(w, g.id) && t == TallyOf(w, step, g)
    && match step
       case Called(ans, c) =>
         before <= c.begun && c.Ordered() && after == c.verified && v == Call(w, g.id, g.settings, g.retry, ans, c).world
       case Elsewhere => before <= after && LeavesAlone(w, v, g.id)
  }

  function TotalReads(ts: seq<Tally>): nat {
    if ts == [] then 0 else TotalReads(ts[..|ts| - 1]) + ts[|ts| - 1].readCount
  }

  function Died(ts: seq<Tally>): nat {
    if ts == [] then 0 else Died(ts[..|ts| - 1]) + (if ts[|ts| - 1].died then 1 else 0)
  }

  function DueCalls(ts: seq<Tally>): nat {
    if ts == [] then 0 else DueCalls(ts[..|ts| - 1]) + (if ts[|ts| - 1].due then 1 else 0)
  }

  lemma ElsewhereKeeps(w: World, v: World, g: Setting, before: int, after: int)
    requires Inv(w, g.id, g.retry, g.deadline, before) && before <= after && LeavesAlone(w, v, g.id)
    ensures Inv(v, g.id, g.retry, g.deadline, after)
    ensures Budget(v, g.id, g.retry) == Budget(w, g.id, g.retry) && (Open(v, g.id) <==> Open(w, g.id))
            && (Quiet(w, g.id) ==> Quiet(v, g.id))
  {}

  /** How a step moves the accounts of the run. */
  ghost predicate Tallied(w: World, v: World, t: Tally, g: Setting)
    requires Known(w, g.id) && Known(v, g.id)
  {
    && Budget(v, g.id, g.retry) <= Budget(w, g.id, g.retry)
    && RowsOf(w, g.id) <= RowsOf(v, g.id)
    && (Quiet(w, g.id) ==> Quiet(v, g.id) && RowsOf(v, g.id) == RowsOf(w, g.id) && t.readCount == 0 && !t.due && (Open(w, g.id) ==> Open(v, g.id)))
    && (|| t.readCount + Budget(v, g.id, g.retry) <= Budget(w, g.id, g.retry) + (if t.died then 1 else 0)
        || (t.readCount + Budget(v, g.id, g.retry) <= Budget(w, g.id, g.retry) + 1 && Quiet(v, g.id) && Open(v, g.id)))
    && (t.due ==> Budget(v, g.id, g.retry) < Budget(w, g.id, g.retry) || Quiet(v, g.id))
  }

  lemma MovesTally(w: World, v: World, step: Step, t: Tally, before: int, after: int, g: Setting)
    requires Inv(w, g.id, g.retry, g.deadline, before) && Moves(w, v, step, t, before, after, g)
    ensures Inv(v, g.id, g.retry, g.deadline, after) && Tallied(w, v, t, g)
    ensures step.Called? ==> v.journal.calls == w.journal.calls
  {
    match step
    case Called(ans, c) =>
      CallSpends(w, g.id, g.settings, g.retry, ans, c, g.deadline, before);
      StatusFacts(w, g.id, g.retry, g.deadline, before, c.begun);
    case Elsewhere => ElsewhereKeeps(w, v, g, before, after);
  }

  /** A step keeps the invariant, and the accounts with it. */
  ghost predicate Carries(w: World, v: World, t: Tally, before: int, after: int, g: Setting) {
    Inv(w, g.id, g.retry, g.deadline, before) ==> Inv(v, g.id, g.retry, g.deadline, after) && Tallied(w, v, t, g)
  }

  lemma RunCarries(worlds: seq<World>, steps: seq<Step>, ts: seq<Tally>, at: seq<int>, g: Setting)
    requires Run(worlds, steps, ts, at, g)
    ensures forall i, j :: 0 <= i < j < |worlds| && j == i + 1 ==> Carries(worlds[i], worlds[j], ts[i], at[i], at[j], g)
  {
    forall i, j | 0 <= i < j < |worlds| && j == i + 1
      ensures Carries(worlds[i], worlds[j], ts[i], at[i], at[j], g)
    {
      if Inv(worlds[i], g.id, g.retry, g.deadline, at[i]) {
        MovesTally(worlds[i], worlds[j], steps[i], ts[i], at[i], at[j], g);
      }
    }
  }

  lemma {:induction false} CarriedInv(worlds: seq<World>, ts: seq<Tally>, at: seq<int>, g: Setting, n: nat)
    requires |worlds| == |at| == |ts| + 1 && n < |worlds| && Inv(worlds[0], g.id, g.retry, g.deadline, at[0])
    requires forall i, j :: 0 <= i < j < |worlds| && j == i + 1 ==> Carries(worlds[i], worlds[j], ts[i], at[i], at[j], g)
    ensures Inv(worlds[n], g.id, g.retry, g.deadline, at[n])
  {
    if n > 0 {
      CarriedInv(worlds, ts, at, g, n - 1);
      assert Carries(worlds[n - 1], worlds[n], ts[n - 1], at[n - 1], at[n], g);
    }
  }

  lemma RunInv(worlds: seq<World>, steps: seq<Step>, ts: seq<Tally>, at: seq<int>, g: Setting, n: nat)
    requires Run(worlds, steps, ts, at, g) && n <= |steps|
    ensures Inv(worlds[n], g.id, g.retry, g.deadline, at[n])
  {
    RunCarries(worlds, steps, ts, at, g);
    CarriedInv(worlds, ts, at, g, n);
  }

  /** What the proofs below need of a run. */
  ghost predicate TalliedRun(worlds: seq<World>, ts: seq<Tally>, g: Setting) {
    && |worlds| == |ts| + 1 && (forall i :: 0 <= i < |worlds| ==> Known(worlds[i], g.id))
    && Budget(worlds[0], g.id, g.retry) == 2 * g.retry.maxAttempts && !Open(worlds[0], g.id)
    && forall i, j :: 0 <= i < j < |worlds| && j == i + 1 ==> Tallied(worlds[i], worlds[j], ts[i], g)
  }

  lemma RunIsTallied(worlds: seq<World>, steps: seq<Step>, ts: seq<Tally>, at: seq<int>, g: Setting)
    requires Run(worlds, steps, ts, at, g)
    ensures TalliedRun(worlds, ts, g)
  {
    forall i | 0 <= i < |worlds|
      ensures Known(worlds[i], g.id)
    {
      RunInv(worlds, steps, ts, at, g, i);
    }
    forall i, j | 0 <= i < j < |worlds| && j == i + 1
      ensures Tallied(worlds[i], worlds[j], ts[i], g)
    {
      RunInv(worlds, steps, ts, at, g, i);
      MovesTally(worlds[i], worlds[j], steps[i], ts[i], at[i], at[j], g);
    }
  }

  lemma Tallies(ts: seq<Tally>, n: nat)
    requires 0 < n <= |ts|
    ensures TotalReads(ts[..n]) == TotalReads(ts[..n - 1]) + ts[n - 1].readCount
    ensures Died(ts[..n]) == Died(ts[..n - 1]) + (if ts[n - 1].died then 1 else 0)
    ensures DueCalls(ts[..n]) == DueCalls(ts[..n - 1]) + (if ts[n - 1].due then 1 else 0)
  {
    assert ts[..n][..n - 1] == ts[..n - 1];
  }

  lemma {:induction false} ReadAccounts(worlds: seq<World>, ts: seq<Tally>, g: Setting, n: nat)
    requires TalliedRun(worlds, ts, g) && n <= |ts|
    ensures TotalReads(ts[..n]) + Budget(worlds[n], g.id, g.retry)
              <= 2 * g.retry.maxAttempts + Died(ts[..n]) + (if Quiet(worlds[n], g.id) && Open(worlds[n], g.id) then 1 else 0)
  {
    if n > 0 {
      ReadAccounts(worlds, ts, g, n - 1);
      Tallies(ts, n);
      assert Tallied(worlds[n - 1], worlds[n], ts[n - 1], g);
    }
  }

  /** At most two reads for each allowed attempt, plus one for each call that died on the way. */
  lemma ReadsBounded(worlds: seq<World>, steps: seq<Step>, ts: seq<Tally>, at: seq<int>, g: Setting, n: nat)
    requires Run(worlds, steps, ts, at, g) && n <= |steps|
    ensures TotalReads(ts[..n]) <= 2 * g.retry.maxAttempts + Died(ts[..n])
    ensures Count(RowsOf(worlds[n], g.id)) <= g.retry.maxAttempts
  {
    RunIsTallied(worlds, steps, ts, at, g);
    ReadAccounts(worlds, ts, g, n);
    RunInv(worlds, steps, ts, at, g, n);
  }

  /** Nothing happens any more once the command is quiet. */
  ghost predicate StaysQuiet(w: World, v: World, readCount: nat, id: Id) {
    id in w.actions.byId && Quiet(w, id) ==> id in v.actions.byId && Quiet(v, id) && RowsOf(v, id) == RowsOf(w, id) && readCount == 0
  }

  lemma TalliedIsQuiet(worlds: seq<World>, ts: seq<Tally>, g: Setting)
    requires TalliedRun(worlds, ts, g)
    ensures forall i, j :: 0 <= i < j < |worlds| && j == i + 1 ==> StaysQuiet(worlds[i], worlds[j], ts[i].readCount, g.id)
  {
    forall i, j | 0 <= i < j < |worlds| && j == i + 1
      ensures StaysQuiet(worlds[i], worlds[j], ts[i].readCount, g.id)
    {
      assert Tallied(worlds[i], worlds[j], ts[i], g);
    }
  }

  lemma {:induction false} QuietStays(worlds: seq<World>, ts: seq<Tally>, id: Id, m: nat, n: nat)
    requires |worlds| == |ts| + 1 && m <= n <= |ts| && id in worlds[m].actions.byId && Quiet(worlds[m], id)
    requires forall i, j :: 0 <= i < j < |worlds| && j == i + 1 ==> StaysQuiet(worlds[i], worlds[j], ts[i].readCount, id)
    ensures id in worlds[n].actions.byId && Quiet(worlds[n], id) && RowsOf(worlds[n], id) == RowsOf(worlds[m], id)
    ensures TotalReads(ts[..n]) == TotalReads(ts[..m])
    decreases n
  {
    if m < n {
      QuietStays(worlds, ts, id, m, n - 1);
      Tallies(ts, n);
      assert StaysQuiet(worlds[n - 1], worlds[n], ts[n - 1].readCount, id);
    }
  }

  /** Once the command is settled or escalated there is no further read and no further record. */
  lemma NothingAfterQuiet(worlds: seq<World>, steps: seq<Step>, ts: seq<Tally>, at: seq<int>, g: Setting, m: nat,
                          n: nat)
    requires Run(worlds, steps, ts, at, g) && m <= n <= |steps| && Known(worlds[m], g.id) && Quiet(worlds[m], g.id)
    ensures Known(worlds[n], g.id) && Quiet(worlds[n], g.id) && RowsOf(worlds[n], g.id) == RowsOf(worlds[m], g.id)
    ensures TotalReads(ts[..n]) == TotalReads(ts[..m])
  {
    RunIsTallied(worlds, steps, ts, at, g);
    TalliedIsQuiet(worlds, ts, g);
    QuietStays(worlds, ts, g.id, m, n);
  }

  lemma {:induction false} DueAccounts(worlds: seq<World>, ts: seq<Tally>, g: Setting, n: nat)
    requires TalliedRun(worlds, ts, g) && n <= |ts|
    ensures DueCalls(ts[..n]) + Budget(worlds[n], g.id, g.retry) + (if Quiet(worlds[n], g.id) then 0 else 1) <= 2 * g.retry.maxAttempts + 1
  {
    if n > 0 {
      DueAccounts(worlds, ts, g, n - 1);
      Tallies(ts, n);
      assert Tallied(worlds[n - 1], worlds[n], ts[n - 1], g);
    }
  }

  /** Reconciliation ends: after `2 * maxAttempts + 1` due calls that ran to their end, whatever they
      read and whatever happened between them, the command is settled or escalated. */
  lemma ReconciliationEnds(worlds: seq<World>, steps: seq<Step>, ts: seq<Tally>, at: seq<int>, g: Setting, n: nat)
    requires Run(worlds, steps, ts, at, g) && n <= |steps|
    ensures DueCalls(ts[..n]) <= 2 * g.retry.maxAttempts + 1
    ensures DueCalls(ts[..n]) == 2 * g.retry.maxAttempts + 1 ==> Known(worlds[n], g.id) && Quiet(worlds[n], g.id)
  {
    RunIsTallied(worlds, steps, ts, at, g);
    DueAccounts(worlds, ts, g, n);
    RunInv(worlds, steps, ts, at, g, n);
  }

  /** The reconciler never calls `execute` or `rollback`. */
  lemma NeverMutates(worlds: seq<World>, steps: seq<Step>, ts: seq<Tally>, at: seq<int>, g: Setting, i: nat)
    requires Run(worlds, steps, ts, at, g) && i < |steps| && steps[i].Called?
    ensures worlds[i + 1].journal.calls == worlds[i].journal.calls
  {
    RunInv(worlds, steps, ts, at, g, i);
    MovesTally(worlds[i], worlds[i + 1], steps[i], ts[i], at[i], at[i + 1], g);
  }

  // ---------------------------------------------------------------- spacing

  /** The backoffs after the first `n` attempts, summed. */
  function Waits(n: nat, rs: Retry): nat { if n == 0 then 0 else Waits(n - 1, rs) + Backoff(n, rs) }

  lemma {:induction false} WaitsAddUp(rows: seq<ReadRecord>, rs: Retry, deadline: int, k: nat)
    requires Spaced(rows, rs, deadline) && k < |rows| && forall i :: 0 <= i <= k ==> !rows[i].terminal
    ensures rows[0].updatedAt + Waits(k, rs) <= rows[k].updatedAt
    ensures 0 < k ==> rows[0].updatedAt + Waits(k, rs) < deadline
  {
    if k > 0 {
      WaitsAddUp(rows, rs, deadline, k - 1);
      assert rows[k - 1].updatedAt + Backoff(k, rs) <= rows[k].updatedAt;
    }
  }

  lemma {:induction false} WaitsGrow(n: nat, rs: Retry)
    requires rs.Valid()
    ensures n * Smallest(rs) <= Waits(n, rs)
  {
    if n > 0 {
      WaitsGrow(n - 1, rs);
      BackoffAtLeast(n, rs);
      assert n * Smallest(rs) == (n - 1) * Smallest(rs) + Smallest(rs);
    }
  }

  function Smallest(rs: Retry): nat { if rs.baseBackoff < rs.maxBackoff then rs.baseBackoff else rs.maxBackoff }

  lemma {:induction false} Pow2Positive(n: nat)
    ensures 1 <= Pow2(n)
  {
    if n > 0 { Pow2Positive(n - 1); }
  }

  lemma BackoffAtLeast(n: nat, rs: Retry)
    requires rs.Valid() && 0 < n
    ensures Smallest(rs) <= Backoff(n, rs) <= rs.maxBackoff
  {
    Pow2Positive(n - 1);
    assert rs.baseBackoff * 1 <= rs.baseBackoff * Pow2(n - 1);
  }

  /** In every run, attempt `k + 1` is recorded at least the sum of the first `k` backoffs after attempt 1,
      and that sum still fits before the deadline, which bounds the attempts by arithmetic alone. */
  lemma AttemptsSpaced(worlds: seq<World>, steps: seq<Step>, ts: seq<Tally>, at: seq<int>, g: Setting, n: nat, k: nat)
    requires Run(worlds, steps, ts, at, g) && n <= |steps| && g.retry.Valid()
    requires 0 < k < Count(RowsOf(worlds[n], g.id))
    ensures k < |RowsOf(worlds[n], g.id)|
    ensures var rows := RowsOf(worlds[n], g.id);
            && rows[0].updatedAt + Waits(k, g.retry) <= rows[k].updatedAt
            && rows[0].updatedAt + Waits(k, g.retry) < g.deadline
            && k * Smallest(g.retry) < g.deadline - rows[0].updatedAt
  {
    var rows := RowsOf(worlds[n], g.id);
    RunInv(worlds, steps, ts, at, g, n);
    CountIsLength(rows, at[n]);
    WaitsAddUp(rows, g.retry, g.deadline, k);
    WaitsGrow(k, g.retry);
  }
}
