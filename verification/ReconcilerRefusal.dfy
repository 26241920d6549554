/** A run to the refusal that `StrandedReads` predicts: the provider accepts, the process dies, the reconciler finds the
    resource and its re-verification proves the mitigation.  The incident is resolved, its leases are given back, every
    command is finished, and the restart is refused because of the PENDING read alone. */
module ReconcilerRefusal {
  import opened Options
  import opened DurableCore
  import opened Execution
  import opened Reconciliation
  import opened RestartRefusals
  import Runs = ExecutionRuns
  import Lifecycle = PlatformLifecycle

  // ---------------------------------------------------------------- the read

  /** What the read leaves on record. */
  function FoundRow(n: Names, now: int): ReadRecord {
    ReadRecord(n.command, n.incident, 1, ProviderAvailable, false, now)
  }

  lemma ReadableNow(s: Settings, n: Names, now: int)
    requires Permissive(s)
    ensures CanRead(Acked(n, s, now), s)
  {}

  /** A first attempt is due at once. */
  lemma FirstIsDue(w: World, n: Names, s: Settings, rs: Retry, now: int)
    requires w.attempts == map[] && rs.Valid()
    ensures WorkStatus(w, Acked(n, s, now), rs, now) == Due && Count(Attempts(w, n.command)) == 0
  {
    assert RowsOf(w, n.command) == [];
  }

  lemma AskedFacts(w: World, n: Names, s: Settings, now: int)
    requires n.Valid() && Shows(w, n, Verified(n, s, now))
    ensures w.actions.Filed() && n.command in w.actions.byId && w.actions.byId[n.command] == Acked(n, s, now)
            && n.incident in w.incidents.items
    ensures InState(w, n.incident, Verifying) && w.attempts == map[] && w.recovery == map[]
    ensures w.actions.byId == map[n.command := Acked(n, s, now)]
    ensures forall k <- w.leases :: w.leases[k].owner == n.incident
  {}

  /** The reconciler asks the provider, and changes nothing before it has the answer. */
  lemma Asks(w: World, n: Names, now: int, c: Runs.Config)
    requires n.Valid() && Permissive(c.settings) && c.retry.Valid() && Shows(w, n, Verified(n, c.settings, now))
    ensures Begin(w, n.command, c.settings, c.retry, now, NoCrash) == Ok(w, AwaitRead(Acked(n, c.settings, now), 1))
  {
    var a := Acked(n, c.settings, now);
    AskedFacts(w, n, c.settings, now);
    FirstIsDue(w, n, c.settings, c.retry, now);
    ReadableNow(c.settings, n, now);
    assert Act(w, a, Due, 0, c.settings, now, NoCrash) == Ok(w, AwaitRead(a, 1));
  }

  /** The provider knows the resource. */
  lemma Finds(w: World, n: Names, s: Settings, now: int)
    requires n.Valid() && Shows(w, n, Verified(n, s, now))
    ensures FinishRead(w, Acked(n, s, now), 1, Resource(AvailablePhase, None), now, NoCrash)
            == Ok(w.(attempts := map[n.command := [FoundRow(n, now)]]), AwaitReverify(Acked(n, s, now), 1))
  {
    var a := Acked(n, s, now);
    AskedFacts(w, n, s, now);
    assert SaveAttempt(w, a, 1, ProviderAvailable, false, now) == w.(attempts := map[n.command := [FoundRow(n, now)]]);
  }

  // ---------------------------------------------------------------- the re-verification

  /** The incident shows the verification before the command is written. */
  function Reverified(w: World, a: ActionCommand, now: int): Eff<()> {
    WriteIncident(SaveCheck(w, Reverify(a.commandId, 1), a.incidentId, VerifyAnswer.VerifiedImproved, Improved, now),
                  a.incidentId, Some(Improved), None, None, now)
  }

  lemma ReverifyIs(w: World, a: ActionCommand, now: int)
    requires a.incidentId in w.incidents.items
    ensures Reverified(w, a, now).Ok? && a.incidentId in Reverified(w, a, now).world.incidents.items
    ensures FinishReverify(w, a, 1, VerifyAnswer.VerifiedImproved, now,
                           NoCrash) == Conclude(Reverified(w, a, now).world, a, Improved, now)
  {}

  lemma ReverifiedFacts(w: World, a: ActionCommand, now: int)
    requires InState(w, a.incidentId, Verifying)
    ensures var v := Reverified(w, a, now).world;
            && InState(v, a.incidentId, Verifying) && SomeImproved(v, a.incidentId) && v.actions == w.actions
            && v.attempts == w.attempts && v.recovery == w.recovery && v.leases == w.leases
  {
    var w1 := SaveCheck(w, Reverify(a.commandId, 1), a.incidentId, VerifyAnswer.VerifiedImproved, Improved, now);
    assert Reverify(a.commandId, 1) in w1.checks;
  }

  /** With one command, and that a success, the gate opens. */
  lemma GateOpensAlone(w: World, a: ActionCommand, now: int)
    requires InState(w, a.incidentId, Verifying) && SomeImproved(w, a.incidentId) && IsPlanType(a.commandType) && a.state.Success?
    requires w.actions.byId == map[a.commandId := a]
    ensures InState(MaybeResolve(w, a.incidentId, a.planVersion, now), a.incidentId, Resolved)
    ensures MaybeResolve(w, a.incidentId, a.planVersion, now).leases == ReleaseAll(w.leases, a.incidentId)
    ensures var v := MaybeResolve(w, a.incidentId, a.planVersion, now);
            v == w.(incidents := v.incidents, leases := v.leases)
  {
    assert a.commandId in w.actions.byId;
    assert AllPlanActionsSucceeded(w, a.incidentId, a.planVersion);
    assert InState(MoveIncidentFrom(w, a.incidentId, Verifying, Resolved, now), a.incidentId, Resolved);
  }

  lemma Succeeds(w: World, a: ActionCommand, now: int)
    requires w.actions.byId == map[a.commandId := a]
    ensures var r := Rewrite(w, a.commandId, Success, None, now);
            && r.Ok? && r.world == w.(actions := r.world.actions) && r.world.actions.byId == map[a.commandId := r.value]
            && r.value == a.(state := Success, completedAt := Some(now), version := a.version + 1)
  {}

  lemma ConcludeIs(w: World, a: ActionCommand, now: int, r: Eff<ActionCommand>)
    requires a.incidentId in w.incidents.items && r == Rewrite(w, a.commandId, Success, None, now) && r.Ok?
    ensures Conclude(w, a, Improved, now).world == MaybeResolve(r.world, r.value.incidentId, r.value.planVersion, now)
  {}

  /** The verified command is the only one. */
  lemma Concluded(w: World, a: ActionCommand, now: int)
    requires InState(w, a.incidentId, Verifying) && SomeImproved(w, a.incidentId) && IsPlanType(a.commandType)
    requires w.actions.byId == map[a.commandId := a]
    ensures var v := Conclude(w, a, Improved, now).world;
            && InState(v, a.incidentId, Resolved) && v.attempts == w.attempts && v.recovery == w.recovery
            && (forall id <- v.actions.byId :: v.actions.byId[id].state.Success?)
            && v.leases == ReleaseAll(w.leases, a.incidentId)
  {
    var r := Rewrite(w, a.commandId, Success, None, now);
    Succeeds(w, a, now);
    ConcludeIs(w, a, now, r);
    GateOpensAlone(r.world, r.value, now);
  }

  /** What the run ends in. */
  ghost predicate OnlyReadLeft(w: World, incident: Id) {
    && InState(w, incident, Resolved) && Lifecycle.HasPendingRead(w, incident)
    && !Lifecycle.HoldsLease(w, incident) && !Lifecycle.HasSibling(w, incident, None) && !Lifecycle.Recovers(w, incident)
  }

  lemma RowIsPending(w: World, n: Names, now: int)
    requires w.attempts == map[n.command := [FoundRow(n, now)]]
    ensures Lifecycle.HasPendingRead(w, n.incident)
  {
    assert n.command in w.attempts && FoundRow(n, now) in w.attempts[n.command];
  }

  lemma ReverifiesAndStrands(w: World, n: Names, s: Settings, now: int)
    requires n.Valid() && Shows(w, n, Verified(n, s, now))
    ensures var u := w.(attempts := map[n.command := [FoundRow(n, now)]]);
            OnlyReadLeft(FinishReverify(u, Acked(n, s, now), 1, VerifyAnswer.VerifiedImproved, now, NoCrash).world, n.incident)
  {
    var a := Acked(n, s, now);
    var u := w.(attempts := map[n.command := [FoundRow(n, now)]]);
    AskedFacts(w, n, s, now);
    ReverifyIs(u, a, now);
    ReverifiedFacts(u, a, now);
    ConcludedStrands(Reverified(u, a, now).world, n, a, now);
  }

  lemma ConcludedStrands(w: World, n: Names, a: ActionCommand, now: int)
    requires a.incidentId == n.incident && InState(w, n.incident, Verifying) && SomeImproved(w, n.incident)
             && IsPlanType(a.commandType)
    requires w.actions.byId == map[a.commandId := a] && w.recovery == map[] && w.attempts == map[n.command := [FoundRow(n, now)]]
    requires forall k <- w.leases :: w.leases[k].owner == n.incident
    ensures OnlyReadLeft(Conclude(w, a, Improved, now).world, n.incident)
  {
    Concluded(w, a, now);
    var v := Conclude(w, a, Improved, now).world;
    RowIsPending(v, n, now);
    NothingElseLeft(v, w.leases, n.incident);
  }

  lemma NothingElseLeft(v: World, leases: map<Id, Lease>, incident: Id)
    requires v.recovery == map[] && v.leases == ReleaseAll(leases, incident) && forall k <- leases :: leases[k].owner == incident
    requires forall id <- v.actions.byId :: v.actions.byId[id].state.Success?
    ensures !Lifecycle.HoldsLease(v, incident) && !Lifecycle.HasSibling(v, incident, None) && !Lifecycle.Recovers(v, incident)
  {}

  // ---------------------------------------------------------------- the run

  lemma ReadReachable(w1: World, n: Names, now: int, c: Runs.Config) returns (w: World)
    requires n.Valid() && Permissive(c.settings) && c.retry.Valid() && Reachable(w1, c) && Shows(w1, n, Verified(n, c.settings, now))
    ensures w == w1.(attempts := map[n.command := [FoundRow(n, now)]]) && Reachable(w, c)
  {
    var a := Acked(n, c.settings, now);
    AskedFacts(w1, n, c.settings, now);
    Asks(w1, n, now, c);
    Reach(w1, Runs.Reconcile(n.command, now, NoCrash), c, w1);
    Finds(w1, n, c.settings, now);
    w := w1.(attempts := map[n.command := [FoundRow(n, now)]]);
    Reach(w1, Runs.ReadAnswered(a, 1, Resource(AvailablePhase, None), now, NoCrash), c, w);
  }

  lemma ReverifyReachable(w1: World, u: World, n: Names, now: int, c: Runs.Config) returns (w: World)
    requires n.Valid() && Reachable(u, c) && Shows(w1, n, Verified(n, c.settings, now))
    requires u == w1.(attempts := map[n.command := [FoundRow(n, now)]])
    ensures Reachable(w, c) && OnlyReadLeft(w, n.incident)
  {
    var a := Acked(n, c.settings, now);
    AskedFacts(w1, n, c.settings, now);
    w := FinishReverify(u, a, 1, VerifyAnswer.VerifiedImproved, now, NoCrash).world;
    ReverifiesAndStrands(w1, n, c.settings, now);
    Reach(u, Runs.ReverifyAnswered(a, 1, VerifyAnswer.VerifiedImproved, now, NoCrash), c, w);
  }

  lemma OnlyReadIsRefused(w: World, incident: Id, later: int)
    requires OnlyReadLeft(w, incident)
    ensures !Lifecycle.Accepts(Lifecycle.Reconstructed(w, later))
  {
    Lifecycle.AcceptedBeforehand(w, later);
  }

  /** The reconciler's ordinary success, for all identities, every instant, all settings that allow mutations and every
      valid retry policy: nothing but the read is left of the incident, and the restart is refused. */
  lemma ReconcilerSuccessStrandsRead(n: Names, now: int, c: Runs.Config, later: int) returns (w: World)
    requires n.Valid() && Permissive(c.settings) && c.retry.Valid()
    ensures Reachable(w, c) && OnlyReadLeft(w, n.incident) && !Lifecycle.Accepts(Lifecycle.Reconstructed(w, later))
  {
    w := SentReachable(n, now, c);
    SendingFacts(w, n, c.settings, now);
    var answered := AnsweredReachable(w, n, now, c, Sending(n, c.settings, now));
    var read := ReadReachable(answered, n, now, c);
    w := ReverifyReachable(answered, read, n, now, c);
    OnlyReadIsRefused(w, n.incident, later);
  }
}
