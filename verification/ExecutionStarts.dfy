/** What `execute_ready_action` does up to its first await, by the state of its command: exactly when it executes a
    READY one, and when it blocks it (durable_execution.py). */
module ExecutionStarts {
  import opened Options
  import opened DurableCore
  import opened Execution
  import opened CallConditions
  import opened ExecutionOutcomes
  import HandlerContinuity
  import OutboxRepository

  // ---------------------------------------------------------------- the conditions

  /** The lease is live for another, or will run out before the call, or never ends. */
  ghost predicate WillBeLeased(w: World, a: ActionCommand, t: Instants) {
    if a.resourceKey in w.leases && HeldAt(w.leases[a.resourceKey], t.leased)
    then w.leases[a.resourceKey].owner == a.incidentId && w.leases[a.resourceKey].expiresAt.Some?
         && t.owned < w.leases[a.resourceKey].expiresAt.value
    else t.owned < t.leased + 300
  }

  predicate HeldAt(l: Lease, now: int) { l.owned && (l.expiresAt.Some? ==> now < l.expiresAt.value) }

  /** Another incident has a live lease on the resource. */
  predicate Taken(w: World, a: ActionCommand, now: int) {
    a.resourceKey in w.leases && HeldAt(w.leases[a.resourceKey], now) && w.leases[a.resourceKey].owner != a.incidentId
  }

  /** The charge conflicts with none that is filed under the command. */
  ghost predicate Chargeable(ledger: seq<Charge>, a: ActionCommand) {
    Priced(a, 0) || Charges(ledger, a) || forall x <- ledger :: x.commandId != a.commandId
  }

  /** What the first look asks for. */
  ghost predicate Clear(w: World, a: ActionCommand, s: Settings, cap: Capability, now: int) {
    InOrder(w, a, s, now) && Affordable(w.ledger, a, s) && Writable(s) && cap.mutation
  }

  /** When a READY command is executed: whenever the executor looks, everything is in order; the lease lasts; the charge
      is possible; and nothing raises on the way. */
  ghost predicate MayExecute(w: World, a: ActionCommand, s: Settings, cap: Capability, t: Instants,
                             fail: Option<Failpoint>) {
    && Clear(w, a, s, cap, t.checked) && InOrder(w, a, s, t.rechecked) && InOrder(w, a, s, t.final)
    && WillBeLeased(w, a, t) && Chargeable(w.ledger, a)
    && fail != Some(BeforeOwnership) && fail != Some(AfterOwnershipBeforeSent) && fail != Some(AfterSentBeforeProvider)
  }

  /** How far a READY command comes, look by look: it fails when it is blocked or refused at the last look, its
      outcome is unknown when its lease ran out after it was claimed, and otherwise it is SENT; where something raises
      it stays as it is. */
  ghost function StartedState(w: World, a: ActionCommand, s: Settings, cap: Capability, t: Instants,
                              fail: Option<Failpoint>): ActionState {
    if !Clear(w, a, s, cap, t.checked) then ActionState.Failed
    else if fail == Some(BeforeOwnership) then Ready
    else if Taken(w, a, t.leased) then ActionState.Failed
    else if fail == Some(AfterOwnershipBeforeSent) then Ready
    else OwnedState(w, a, s, t, fail, WillBeLeased(w, a, t))
  }

  /** The same once the lease is held. */
  ghost function OwnedState(w: World, a: ActionCommand, s: Settings, t: Instants, fail: Option<Failpoint>,
                            lasts: bool): ActionState {
    if !InOrder(w, a, s, t.rechecked) then ActionState.Failed
    else if fail == Some(AfterSentBeforeProvider) then ActionState.Sent
    else if !lasts then OutcomeUnknown
    else if InOrder(w, a, s, t.final) && Chargeable(w.ledger, a) then ActionState.Sent else ActionState.Failed
  }

  /** What the start does with its command.  An uncertain one is read, an acknowledged one verified, a refuted one
      rolled back; a READY one is executed exactly when it may be, and blocked when the first look refuses it or
      another incident holds its resource; any other is left alone. */
  ghost predicate Dispatches(w: World, v: World, id: Id, s: Settings, cap: Capability, t: Instants,
                             fail: Option<Failpoint>, next: Option<Next>) {
    if id !in w.actions.byId then v == w && next == None
    else
      var a := w.actions.byId[id];
      match a.state
      case OutcomeUnknown => v == w && next == Some(AwaitReconcile(a))
      case ReconciliationRequired => v == w && next == Some(AwaitReconcile(a))
      case Acknowledged => v == w.(incidents := v.incidents) && UnderVerification(w, v, a.incidentId) && next == Some(AwaitVerify(a))
      case RollbackRequired => Undertakes(w, v, a, s, cap, next, t.checked, fail)
      case Ready => Starts(w, v, a, s, cap, t, fail, next)
      case _ => v == w && next == Some(Returned)
  }

  /** The same for a READY command. */
  ghost predicate Starts(w: World, v: World, a: ActionCommand, s: Settings, cap: Capability, t: Instants,
                         fail: Option<Failpoint>, next: Option<Next>) {
    && (if MayExecute(w, a, s, cap, t, fail)
        then a.commandId in v.actions.byId && next == Some(AwaitExecute(v.actions.byId[a.commandId]))
        else next.Some? ==> next.value == Returned)
    && a.commandId in v.actions.byId && v.actions.byId[a.commandId].state == StartedState(w, a, s, cap, t, fail)
    && (!Clear(w, a, s, cap, t.checked) ==> Blocks(w, v, a, next.Some?, t.checked))
    && (Clear(w, a, s, cap, t.checked) && fail != Some(BeforeOwnership) && Taken(w, a, t.leased) ==>
        Blocks(w, v, a, next.Some?, t.leased))
  }

  // ---------------------------------------------------------------- the way to the provider

  lemma ClearExactly(w: World, a: ActionCommand, s: Settings, cap: Capability, now: int)
    ensures Clear(w, a, s, cap, now) <==> a.incidentId in w.incidents.items && Eligible(w, a, s, now) && ModeAllows(s) && cap.mutation
  {
    ModeExactly(s);
    if a.incidentId in w.incidents.items { EligibleExactly(w, a, s, now); }
  }

  lemma BlockReturns(w: World, a: ActionCommand, now: int)
    ensures var r := PersistBlock(w, a, now); r.Ok? ==> r.value == Returned
  {}

  /** The lease that the executor takes is the one it needs at the call. */
  lemma LeaseExactly(w: World, a: ActionCommand, t: Instants)
    ensures var l := EnsureOwnership(w, a, t.leased);
            if Taken(w, a, t.leased) then l.None? && !WillBeLeased(w, a, t)
            else l.Some? && l.value == w.(leases := l.value.leases) && (Leased(l.value, a, t.owned) <==> WillBeLeased(w, a, t))
  {}

  /** Leases, and the claim of the command, change nothing that has to be in order. */
  lemma InOrderAside(w: World, v: World, a: ActionCommand, s: Settings, now: int)
    requires v == w.(leases := v.leases)
    ensures InOrder(v, a, s, now) <==> InOrder(w, a, s, now)
  {
    TrustedAside(w, v, a.incidentId, s, now);
  }

  lemma TrustedAside(w: World, v: World, incident: Id, s: Settings, now: int)
    requires v.trust == w.trust
    ensures Trusted(v, incident, s.trustTtl, now) <==> Trusted(w, incident, s.trustTtl, now)
  {}

  lemma MovedInOrder(w: World, a: ActionCommand, s: Settings, at: int, now: int)
    ensures var v := MoveIncidentFrom(w, a.incidentId, Approved, Mitigating, at);
            InOrder(v, a, s, now) <==> InOrder(w, a, s, now)
  {
    var v := MoveIncidentFrom(w, a.incidentId, Approved, Mitigating, at);
    TrustedAside(w, v, a.incidentId, s, now);
    assert Foremost(v, a) <==> Foremost(w, a);
  }

  /** The claimed command. */
  lemma SentInOrder(w: World, v: World, a: ActionCommand, sent: ActionCommand, s: Settings, at: int, now: int)
    requires w.actions.Filed() && HandlerContinuity.Stored(w, a) && a.state.Ready?
             && UpdateAction(w, a, ActionState.Sent, None, at) == Ok(v, sent)
    ensures InOrder(v, sent, s, now) <==> InOrder(w, a, s, now)
  {
    TrustedAside(w, v, a.incidentId, s, now);
    SentForemost(w, v, a, sent);
  }

  lemma SentForemost(w: World, v: World, a: ActionCommand, sent: ActionCommand)
    requires w.actions.Filed() && HandlerContinuity.Stored(w, a) && sent.commandId == a.commandId && sent.incidentId == a.incidentId
    requires sent.planVersion == a.planVersion && sent.resourceKey == a.resourceKey
    requires v.actions.byId == w.actions.byId[a.commandId := sent]
    ensures Foremost(v, sent) <==> Foremost(w, a)
  {
    if Foremost(v, sent) {
      forall id | id in w.actions.byId
        ensures id in v.actions.byId
      {}
    }
  }

  lemma ChargeExactly(w: World, sent: ActionCommand, now: int)
    requires HandlerContinuity.Stored(w, sent) && sent.state.Sent?
    ensures var r := ChargeAndCall(w, sent, now);
            && (if Chargeable(w.ledger, sent) then r == Ok(r.world, AwaitExecute(sent)) && r.world.actions == w.actions
                else LeftIn(r, sent.commandId, ActionState.Failed))
  {
    ChargeableExactly(w, sent);
    if !Chargeable(w.ledger, sent) {
      SettleWrites(w, sent, ActionState.Failed, OutboxRepository.BlockedRow, now);
    }
  }

  lemma ChargeableExactly(w: World, sent: ActionCommand)
    ensures var e := RecordCost(w, sent);
            if Chargeable(w.ledger, sent) then e.Ok? && e.world.actions == w.actions else e == Raised(w)
  {
    AffordableExactly(w.ledger, sent, Settings(Fixture, false, false, 0, 0.0, 0.0, 0, 0, 0));
  }

  /** The segment is at its end, with the command in this state. */
  ghost predicate LeftIn(r: Eff<Next>, id: Id, state: ActionState) {
    (r.Ok? ==> r.value == Returned) && id in r.world.actions.byId && r.world.actions.byId[id].state == state
  }

  /** From the SENT commit on. */
  lemma CallExactly(w: World, sent: ActionCommand, s: Settings, t: Instants)
    requires HandlerContinuity.Stored(w, sent) && sent.state.Sent?
    ensures var r := CallProvider(w, sent, s, t);
            if !Leased(w, sent, t.owned) then LeftIn(r, sent.commandId, OutcomeUnknown)
            else if InOrder(w, sent, s, t.final) && Affordable(w.ledger, sent, s) && Chargeable(w.ledger, sent)
            then r == Ok(r.world, AwaitExecute(sent)) && HandlerContinuity.Stored(r.world, sent)
            else LeftIn(r, sent.commandId, ActionState.Failed)
  {
    if sent.incidentId in w.incidents.items { EligibleExactly(w, sent, s, t.final); }
    ChargeExactly(w, sent, t.final);
    SettleWrites(w, sent, OutcomeUnknown, OutboxRepository.OutcomeUnknownRow, t.owned);
    SettleWrites(w, sent, ActionState.Failed, OutboxRepository.BlockedRow, t.final);
  }

  /** With the lease held. */
  ghost predicate MayTakeUp(w: World, a: ActionCommand, s: Settings, t: Instants, fail: Option<Failpoint>) {
    && InOrder(w, a, s, t.rechecked) && InOrder(w, a, s, t.final) && Affordable(w.ledger, a, s) && Chargeable(w.ledger, a)
    && Leased(w, a, t.owned) && fail != Some(AfterSentBeforeProvider)
  }

  /** The segment goes on to the provider with the command as it is stored now, or is at its end. */
  ghost predicate Reaches(r: Eff<Next>, id: Id, may: bool, state: ActionState) {
    && id in r.world.actions.byId && r.world.actions.byId[id].state == state
    && if may then r == Ok(r.world, AwaitExecute(r.world.actions.byId[id])) else r.Ok? ==> r.value == Returned
  }

  lemma TakeUpExactly(w: World, a: ActionCommand, s: Settings, t: Instants, fail: Option<Failpoint>)
    requires w.actions.Filed() && HandlerContinuity.Stored(w, a) && a.state.Ready? && a.incidentId in w.incidents.items
    requires Affordable(w.ledger, a, s)
    ensures Reaches(TakeUp(w, a, s, t, fail), a.commandId, MayTakeUp(w, a, s, t, fail),
                    OwnedState(w, a, s, t, fail, Leased(w, a, t.owned)))
  {
    EligibleExactly(w, a, s, t.rechecked);
    if Eligible(w, a, s, t.rechecked) {
      var w1 := MoveIncidentFrom(w, a.incidentId, Approved, Mitigating, t.rechecked);
      MovedInOrder(w, a, s, t.rechecked, t.final);
      var u := UpdateAction(w1, a, ActionState.Sent, None, t.rechecked);
      UpdateWrites(w1, a, ActionState.Sent, None, t.rechecked);
      SentInOrder(w1, u.world, a, u.value, s, t.rechecked, t.final);
      CallExactly(u.world, u.value, s, t);
      TakeUpIs(w, a, s, t, fail, w1, u);
      SameMoney(w, u.world, a, u.value, s, t.owned);
    } else {
      BlockReturns(w, a, t.rechecked);
      PersistBlockBlocks(w, a, t.rechecked);
    }
  }

  lemma TakeUpIs(w: World, a: ActionCommand, s: Settings, t: Instants, fail: Option<Failpoint>, w1: World,
                 u: Eff<ActionCommand>)
    requires a.state.Ready? && a.incidentId in w.incidents.items && Eligible(w, a, s, t.rechecked)
    requires w1 == MoveIncidentFrom(w, a.incidentId, Approved, Mitigating, t.rechecked)
             && u == UpdateAction(w1, a, ActionState.Sent, None, t.rechecked) && u.Ok?
    ensures TakeUp(w, a, s, t, fail) ==
            if fail == Some(AfterSentBeforeProvider) then Raised(u.world) else CallProvider(u.world, u.value, s, t)
  {}

  lemma SameMoney(w: World, v: World, a: ActionCommand, sent: ActionCommand, s: Settings, now: int)
    requires v.ledger == w.ledger && v.leases == w.leases
    requires sent.commandId == a.commandId && sent.incidentId == a.incidentId && sent.commandType == a.commandType
             && sent.guaranteedProfile == a.guaranteedProfile && sent.resourceKey == a.resourceKey
    ensures Affordable(v.ledger, sent, s) <==> Affordable(w.ledger, a, s)
    ensures Chargeable(v.ledger, sent) <==> Chargeable(w.ledger, a)
    ensures Leased(v, sent, now) <==> Leased(w, a, now)
  {
    AffordableExactly(w.ledger, a, s);
    AffordableExactly(v.ledger, sent, s);
    assert Cost(sent) == Cost(a);
  }

  lemma OwnExactly(w: World, a: ActionCommand, s: Settings, cap: Capability, t: Instants, fail: Option<Failpoint>)
    requires w.actions.Filed() && HandlerContinuity.Stored(w, a) && a.state.Ready? && Clear(w, a, s, cap, t.checked)
    ensures Reaches(Own(w, a, s, t, fail), a.commandId, MayExecute(w, a, s, cap, t, fail), StartedState(w, a, s, cap, t, fail))
    ensures fail != Some(BeforeOwnership) && Taken(w, a, t.leased) ==> Own(w, a, s, t, fail) == PersistBlock(w, a, t.leased)
  {
    LeaseExactly(w, a, t);
    if Taken(w, a, t.leased) {
      BlockReturns(w, a, t.leased);
      PersistBlockBlocks(w, a, t.leased);
    } else {
      var w1 := EnsureOwnership(w, a, t.leased).value;
      InOrderAside(w, w1, a, s, t.rechecked);
      InOrderAside(w, w1, a, s, t.final);
      TakeUpExactly(w1, a, s, t, fail);
      OwnIs(w, a, s, t, fail, w1);
    }
  }

  lemma OwnIs(w: World, a: ActionCommand, s: Settings, t: Instants, fail: Option<Failpoint>, w1: World)
    requires a.incidentId in w.incidents.items && EnsureOwnership(w, a, t.leased) == Some(w1) && w1 == w.(leases := w1.leases)
    ensures Own(w, a, s, t, fail) ==
            if fail == Some(BeforeOwnership) then Raised(w)
            else if fail == Some(AfterOwnershipBeforeSent) then Raised(w1) else TakeUp(w1, a, s, t, fail)
  {}

  /** A READY command is executed exactly when it may be. */
  lemma ReadyStarts(w: World, a: ActionCommand, s: Settings, cap: Capability, t: Instants, fail: Option<Failpoint>,
                    r: Eff<Next>)
    requires w.actions.Filed() && HandlerContinuity.Stored(w, a) && a.state.Ready? && r == StartReady(w, a, s, cap, t, fail)
    ensures Starts(w, r.world, a, s, cap, t, fail, Seen(r))
  {
    ClearExactly(w, a, s, cap, t.checked);
    if !Clear(w, a, s, cap, t.checked) {
      PersistBlockBlocks(w, a, t.checked);
      BlockReturns(w, a, t.checked);
    } else {
      OwnExactly(w, a, s, cap, t, fail);
      PersistBlockBlocks(w, a, t.leased);
    }
  }

  lemma StartDispatches(w: World, id: Id, s: Settings, cap: Capability, freshId: Id, t: Instants,
                        fail: Option<Failpoint>, r: Eff<Next>)
    requires w.actions.Filed() && freshId !in w.actions.byId && r == Start(w, id, s, cap, freshId, t, fail)
    ensures Dispatches(w, r.world, id, s, cap, t, fail, Seen(r))
  {
    if id in w.actions.byId {
      var a := w.actions.byId[id];
      match a.state
      case Ready => ReadyStarts(w, a, s, cap, t, fail, r);
      case RollbackRequired => BeginRollbackUndertakes(w, a, s, cap, freshId, t.checked, fail, r);
      case _ =>
    }
  }
}
