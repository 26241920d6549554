/** Concurrent ingestors: each plans from what it has read, however stale, and commits through the atomic
    transaction. */
module IngestionRuns {
  import opened Options
  import opened DurableCore
  import opened PlatformEvents
  import opened InboundProcessing
  import IR = IncidentRepository
  import Outbox = OutboxRepository
  import Evidence = EvidenceConvergence

  /** `seen` is the moment at which the ingestor read the state it planned from. */
  datatype Op =
    | Ingest(event: Event, seen: nat)
    | Move(id: Id, to: IncidentState, at: int)
    | Update(incident: IR.Incident, expected: nat)
    | Consume(rows: map<Outbox.OutboxId, Outbox.Row>)

  ghost function Apply(s: Bundle, planned: Bundle, op: Op): Bundle {
    match op
    case Ingest(e, _) => Processed(s, e, PlanFor(planned, e)).0
    case Move(id, to, at) => (match s.incidents.Transition(id, to, at) case Done(store) => s.(incidents := store) case Refused(_) => s)
    case Update(i, expected) => (match s.incidents.Update(i, expected) case Done(store) => s.(incidents := store) case Refused(_) => s)
    case Consume(rows) => s.(outbox := rows)
  }

  /** Events are canonical, the incident hash is injective, updates keep the correlation key, and consumers keep the
      rows. */
  ghost predicate Admissible(s: Bundle, op: Op) {
    match op
    case Ingest(e, _) =>
      Canonical(e) && (IncidentIdOf(e) in s.incidents.items ==> e.idempotencyKey in s.claimed || HasId(s.events, e.eventId))
    case Move(_, _, _) => true
    case Update(i, _) => i.incidentId in s.incidents.items ==> i.correlationKey == s.incidents.items[i.incidentId].correlationKey
    case Consume(rows) => rows.Keys == s.outbox.Keys
  }

  /** The state an operation was planned from. */
  function PlannedFrom(states: seq<Bundle>, i: nat, op: Op): Bundle
    requires i < |states|
  {
    if op.Ingest? && op.seen <= i then states[op.seen] else states[i]
  }

  ghost predicate Run(states: seq<Bundle>, ops: seq<Op>) {
    && |states| == |ops| + 1 && states[0] == Empty()
    && forall i, j :: 0 <= i < j < |states| && j == i + 1 ==> Steps(states[i], PlannedFrom(states, i, ops[i]), states[j], ops[i])
  }

  ghost predicate Steps(s: Bundle, planned: Bundle, t: Bundle, op: Op) {
    Admissible(s, op) && t == Apply(s, planned, op)
  }

  // ---------------------------------------------------------------- what time does to the state

  ghost predicate Known(s: IR.IncidentStore, t: IR.IncidentStore) {
    forall id <- s.items :: id in t.items && t.items[id].correlationKey == s.items[id].correlationKey
                            && (IR.Closed(s.items[id].state) ==> IR.Closed(t.items[id].state))
  }

  /** Observed times only rise. */
  ghost predicate Risen(a: Entity, b: Entity) {
    forall c :: ObservedAt(a, c).Some? ==> ObservedAt(b, c).Some? && ObservedAt(a, c).value <= ObservedAt(b, c).value
  }

  /** `t` comes after `s`: an entity of the same version is the same entity, and an incident that was
      opened for a cell in between has changed the version of the cell. */
  ghost predicate Later(s: Bundle, t: Bundle) {
    && LaterNetwork(s.network, t.network)
    && Known(s.incidents, t.incidents)
    && (forall x, cell :: x in t.incidents.items && x !in s.incidents.items && t.incidents.items[x].correlationKey == CellKey(cell) ==>
        VersionOf(s.network, cell) < VersionOf(t.network, cell))
  }

  lemma LaterTrans(s: Bundle, t: Bundle, u: Bundle)
    requires Later(s, t) && Later(t, u)
    ensures Later(s, u)
  {
    forall id | id in s.network
      ensures Risen(s.network[id], u.network[id])
    {
      assert Risen(s.network[id], t.network[id]) && Risen(t.network[id], u.network[id]);
    }
    forall x, cell | x in u.incidents.items && x !in s.incidents.items && u.incidents.items[x].correlationKey == CellKey(cell)
      ensures VersionOf(s.network, cell) < VersionOf(u.network, cell)
    {
      assert x in t.incidents.items ==> t.incidents.items[x].correlationKey == CellKey(cell);
      assert VersionOf(s.network, cell) <= VersionOf(t.network, cell) <= VersionOf(u.network, cell);
    }
  }

  // ---------------------------------------------------------------- one transaction

  predicate Refuses(s: Bundle, e: Event) {
    e.idempotencyKey in s.claimed || HasId(s.events, e.eventId) || e.idempotencyKey in s.keys
  }

  /** A transaction that is not accepted changes nothing but, at most, the claim of its key. */
  lemma NotAccepted(s: Bundle, planned: Bundle, e: Event)
    requires !Processed(s, e, PlanFor(planned, e)).1.Accepted?
    ensures var t := Processed(s, e, PlanFor(planned, e)).0; t == s.(claimed := t.claimed) && s.claimed.Keys <= t.claimed.Keys
    ensures var r := Processed(s, e, PlanFor(planned, e)); r.1.Raised? || e.idempotencyKey in s.claimed ==> r.0 == s
  {}

  /** An accepted transaction appends its event, claims its key and leaves its row. */
  lemma AcceptedLog(s: Bundle, planned: Bundle, e: Event)
    requires Processed(s, e, PlanFor(planned, e)).1.Accepted?
    ensures var t := Processed(s, e, PlanFor(planned, e)).0;
            && !Refuses(s, e) && t.events == s.events + [e] && t.keys == s.keys + {e.idempotencyKey}
            && t.claimed == s.claimed[e.idempotencyKey := e.eventId]
            && t.outbox.Keys == s.outbox.Keys + {Outbox.OutEvent(e.eventId)}
  {
    PlanFacts(planned, e);
    ProcessedLog(s, e, PlanFor(planned, e));
  }

  /** What `process` writes, whatever the plan. */
  lemma ProcessedLog(s: Bundle, e: Event, plan: Plan)
    requires Processed(s, e, plan).1.Accepted? && plan.transition.None? && plan.outbox.Some?
    ensures var t := Processed(s, e, plan).0;
            && !Refuses(s, e) && t.events == s.events + [e] && t.keys == s.keys + {e.idempotencyKey}
            && t.claimed == s.claimed[e.idempotencyKey := e.eventId] && t.outbox.Keys == s.outbox.Keys + {plan.outbox.value.id}
  {}

  lemma ProcessedNetwork(s: Bundle, e: Event, plan: Plan)
    requires Processed(s, e, plan).1.Accepted? && plan.transition.None?
    ensures var t := Processed(s, e, plan).0;
            if plan.projection.None? then t.network == s.network
            else
              var item := plan.projection.value.item;
              VersionOf(s.network, item.entityId) == plan.projection.value.expected
              && t.network == s.network[item.entityId := item.(version := plan.projection.value.expected + 1)]
  {}

  lemma PlanFacts(planned: Bundle, e: Event)
    ensures var plan := PlanFor(planned, e); var item := ProjectionFor(Find(planned.network, e.entityId), e);
            && plan.transition.None? && plan.outbox.Some? && plan.outbox.value.id == Outbox.OutEvent(e.eventId)
            && (plan.projection.Some? <==> item.Some?)
            && (item.Some? ==>
                && plan.projection.value.expected == VersionOf(planned.network, e.entityId)
                && plan.projection.value.item.(activeIncidents := item.value.activeIncidents) == item.value
                && plan.projection.value.item.entityId == item.value.entityId)
  {}

  lemma ProjectionIsFiled(planned: Bundle, e: Event)
    requires Filed(planned)
    ensures var item := ProjectionFor(Find(planned.network, e.entityId), e); item.Some? ==> item.value.entityId == e.entityId
  {}

  /** It saves the planned projection, if there is one, against the version it was planned from. */
  lemma AcceptedNetwork(s: Bundle, planned: Bundle, e: Event)
    requires Processed(s, e, PlanFor(planned, e)).1.Accepted? && Filed(planned)
    ensures var t := Processed(s, e, PlanFor(planned, e)).0; var item := ProjectionFor(Find(planned.network, e.entityId), e);
            && (item.None? ==> t.network == s.network)
            && (item.Some? ==>
                && VersionOf(s.network, e.entityId) == VersionOf(planned.network, e.entityId)
                && t.network == s.network[e.entityId := PlanFor(planned, e).projection.value.item.(version := VersionOf(s.network, e.entityId) + 1)]
                && PlanFor(planned, e).projection.value.item.(activeIncidents := item.value.activeIncidents) == item.value)
  {
    PlanFacts(planned, e);
    ProjectionIsFiled(planned, e);
    ProcessedNetwork(s, e, PlanFor(planned, e));
  }

  /** It opens at most the incident of its event, and only together with a new version of the entity. */
  lemma AcceptedIncidents(s: Bundle, planned: Bundle, e: Event)
    requires Processed(s, e, PlanFor(planned, e)).1.Accepted?
    ensures var t := Processed(s, e, PlanFor(planned, e)).0; var i := PlanFor(planned, e).incident;
            t.incidents == (if i.Some? then s.incidents.CreateOrGetActive(i.value).0 else s.incidents)
    ensures var i := PlanFor(planned, e).incident;
            i.Some? ==> i.value == IncidentFor(e) && IsHighCongestion(e) && ProjectionFor(Find(planned.network, e.entityId), e).Some?
                        && planned.incidents.FindActive(e.correlationKey).None?
  {}

  lemma CellKeyInjective(a: Id, b: Id)
    requires CellKey(a) == CellKey(b)
    ensures a == b
  {
    assert CellKey(a)[5..] == a && CellKey(b)[5..] == b;
  }

  /** A plan that is accepted was made from the entity as it is now. */
  lemma PlannedFromCurrent(s: Bundle, planned: Bundle, e: Event)
    requires Processed(s, e, PlanFor(planned, e)).1.Accepted? && Filed(planned) && Later(planned, s)
    ensures ProjectionFor(Find(planned.network, e.entityId), e).Some? ==>
              Find(planned.network, e.entityId) == Find(s.network, e.entityId)
    ensures ProjectionFor(Find(planned.network, e.entityId), e) == ProjectionFor(Find(s.network, e.entityId), e)
  {
    AcceptedNetwork(s, planned, e);
    if ChannelOf(e.report).Some? && StaleForIngestor(Find(planned.network, e.entityId), e) {
      assert Risen(planned.network[e.entityId], s.network[e.entityId]);
    }
  }

  lemma ProjectionRises(current: Entity, e: Event)
    requires ProjectionFor(Some(current), e).Some?
    ensures Risen(current, ProjectionFor(Some(current), e).value)
  {}

  lemma ListedRises(current: Entity, e: Event, item: Entity)
    requires ProjectionFor(Some(current), e).Some?
    requires item.(activeIncidents := ProjectionFor(Some(current), e).value.activeIncidents) == ProjectionFor(Some(current), e).value
    ensures Risen(current, item)
  {
    ProjectionRises(current, e);
    assert forall c :: ObservedAt(item, c) == ObservedAt(ProjectionFor(Some(current), e).value, c);
  }

  /** What `Later` says of the networks. */
  ghost predicate LaterNetwork(m: map<Id, Entity>, n: map<Id, Entity>) {
    && (forall id <- m :: id in n && m[id].version <= n[id].version && Risen(m[id], n[id]) && (m[id].version == n[id].version ==> m[id] == n[id]))
    && (forall id <- n :: id !in m ==> 0 < n[id].version)
  }

  lemma SavedLater(m: map<Id, Entity>, id: Id, item: Entity)
    requires id in m ==> Risen(m[id], item)
    ensures LaterNetwork(m, m[id := item.(version := VersionOf(m, id) + 1)])
  {
    var saved := item.(version := VersionOf(m, id) + 1);
    assert forall c :: ObservedAt(saved, c) == ObservedAt(item, c);
    assert id in m ==> Risen(m[id], saved);
  }

  lemma AcceptedNetworkLater(s: Bundle, planned: Bundle, e: Event)
    requires Processed(s, e, PlanFor(planned, e)).1.Accepted? && Filed(planned) && Later(planned, s)
    ensures LaterNetwork(s.network, Processed(s, e, PlanFor(planned, e)).0.network)
  {
    AcceptedNetwork(s, planned, e);
    PlannedFromCurrent(s, planned, e);
    ItemLater(s.network, e, PlanFor(planned, e).projection, Processed(s, e, PlanFor(planned, e)).0.network);
  }

  /** The saved projection of an event, if there is one, is later than what was stored. */
  lemma ItemLater(network: map<Id, Entity>, e: Event, saved: Option<Projection>, after: map<Id, Entity>)
    requires ProjectionFor(Find(network, e.entityId), e).None? ==> after == network
    requires var item := ProjectionFor(Find(network, e.entityId), e);
             item.Some? ==>
               && saved.Some? && saved.value.item.(activeIncidents := item.value.activeIncidents) == item.value
               && after == network[e.entityId := saved.value.item.(version := VersionOf(network, e.entityId) + 1)]
    ensures LaterNetwork(network, after)
  {
    var cur := Find(network, e.entityId);
    if ProjectionFor(cur, e).Some? {
      if cur.Some? { ListedRises(cur.value, e, saved.value.item); }
      SavedLater(network, e.entityId, saved.value.item);
    }
  }

  lemma AcceptedLater(s: Bundle, planned: Bundle, e: Event)
    requires Processed(s, e, PlanFor(planned, e)).1.Accepted? && Filed(planned) && Later(planned, s)
    requires Canonical(e) && IncidentIdOf(e) !in s.incidents.items
    ensures Later(s, Processed(s, e, PlanFor(planned, e)).0)
  {
    var t := Processed(s, e, PlanFor(planned, e)).0;
    AcceptedNetworkLater(s, planned, e);
    AcceptedNetwork(s, planned, e);
    AcceptedIncidents(s, planned, e);
    forall x, cell | x in t.incidents.items && x !in s.incidents.items && t.incidents.items[x].correlationKey == CellKey(cell)
      ensures VersionOf(s.network, cell) < VersionOf(t.network, cell)
    {
      CellKeyInjective(cell, e.entityId);
    }
  }

  lemma SelfLater(s: Bundle, t: Bundle)
    requires t.network == s.network && Known(s.incidents, t.incidents) && t.incidents.items.Keys == s.incidents.items.Keys
    ensures Later(s, t)
  {}

  lemma MoveKnown(s: Bundle, op: Op)
    requires Admissible(s, op) && !op.Ingest?
    ensures Known(s.incidents, Apply(s, s, op).incidents) && Apply(s, s, op).incidents.items.Keys == s.incidents.items.Keys
  {
    if op.Move? && s.incidents.Transition(op.id, op.to, op.at).Done? { IR.TransitionsClimb(s.incidents.items[op.id].state, op.to); }
  }

  lemma StepLater(s: Bundle, planned: Bundle, op: Op)
    requires Admissible(s, op) && Filed(planned) && Later(planned, s) && (!op.Ingest? ==> planned == s)
    ensures Later(s, Apply(s, planned, op))
  {
    if op.Ingest? {
      if Processed(s, op.event, PlanFor(planned, op.event)).1.Accepted? {
        AcceptedLog(s, planned, op.event);
        AcceptedLater(s, planned, op.event);
      } else {
        NotAccepted(s, planned, op.event);
        SelfLater(s, Apply(s, planned, op));
      }
    } else {
      MoveKnown(s, op);
      SelfLater(s, Apply(s, s, op));
    }
  }

  // ---------------------------------------------------------------- what every state keeps

  /** Event identities and keys are unique, every key is claimed, and every event has its row in the outbox. */
  ghost predicate Logged(s: Bundle) {
    && (forall i, j :: 0 <= i < j < |s.events| ==>
        s.events[i].eventId != s.events[j].eventId && s.events[i].idempotencyKey != s.events[j].idempotencyKey)
    && (forall e <- s.events :: e.idempotencyKey in s.keys && e.idempotencyKey in s.claimed && Outbox.OutEvent(e.eventId) in s.outbox)
  }

  /** The entity without the incidents it lists. */
  function Bare(e: Entity): Entity { e.(activeIncidents := {}) }

  /** The stored evidence is what the accepted events, one after the other, amount to. */
  ghost predicate Evident(s: Bundle) { Bares(s.network, Evidence.Arrived(Evidence.Ingestor, s.events)) }

  /** Every incident that an entity lists exists. */
  ghost predicate Listed(s: Bundle) {
    forall id <- s.network :: s.network[id].activeIncidents <= s.incidents.items.Keys
  }

  ghost predicate Inv(s: Bundle) { Filed(s) && Logged(s) && Evident(s) && Listed(s) }

  lemma AcceptedLogged(s: Bundle, planned: Bundle, e: Event)
    requires Processed(s, e, PlanFor(planned, e)).1.Accepted? && Logged(s)
    ensures Logged(Processed(s, e, PlanFor(planned, e)).0)
  {
    AcceptedLog(s, planned, e);
  }

  lemma BareProjection(a: Option<Entity>, b: Option<Entity>, e: Event)
    requires a.Some? <==> b.Some?
    requires a.Some? ==> Bare(a.value) == b.value
    ensures ProjectionFor(a, e).Some? <==> ProjectionFor(b, e).Some?
    ensures ProjectionFor(a, e).Some? ==> Bare(ProjectionFor(a, e).value) == ProjectionFor(b, e).value
    ensures ProjectionFor(a, e).Some? ==> ProjectionFor(a, e).value.entityId == if a.Some? then a.value.entityId else e.entityId
    ensures ProjectionFor(a, e).Some? ==> ProjectionFor(a, e).value.version == if a.Some? then a.value.version else 0
    ensures ProjectionFor(a, e).Some? ==> ProjectionFor(a, e).value.activeIncidents == if a.Some? then a.value.activeIncidents else {}
  {}

  /** The stored evidence against the evidence of the log. */
  ghost predicate Bares(network: map<Id, Entity>, arrived: map<Id, Entity>) {
    network.Keys == arrived.Keys && forall id <- network :: Bare(network[id]) == arrived[id] && network[id].entityId == id
  }

  lemma SavedBares(network: map<Id, Entity>, arrived: map<Id, Entity>, e: Event, item: Entity)
    requires Bares(network, arrived) && ProjectionFor(Find(network, e.entityId), e).Some?
    requires item.(activeIncidents := {}) == Bare(ProjectionFor(Find(network, e.entityId), e).value)
    ensures Bares(network[e.entityId := item.(version := VersionOf(network, e.entityId) + 1)],
                  Evidence.Take(Evidence.Ingestor, arrived, e))
  {
    BareProjection(Find(network, e.entityId), Find(arrived, e.entityId), e);
  }

  /** `after` is `before` with the projection of `e`, if it has one, whatever incidents that lists. */
  ghost predicate Takes(before: map<Id, Entity>, after: map<Id, Entity>, e: Event) {
    var cur := Find(before, e.entityId);
    if ProjectionFor(cur, e).None? then after == before
    else exists item: Entity :: item.(activeIncidents := {}) == Bare(ProjectionFor(cur, e).value)
                                && after == before[e.entityId := item.(version := VersionOf(before, e.entityId) + 1)]
  }

  lemma AcceptedTakes(s: Bundle, planned: Bundle, e: Event)
    requires Processed(s, e, PlanFor(planned, e)).1.Accepted? && Filed(planned) && Later(planned, s)
    ensures Takes(s.network, Processed(s, e, PlanFor(planned, e)).0.network, e)
  {
    AcceptedNetwork(s, planned, e);
    PlannedFromCurrent(s, planned, e);
    if ProjectionFor(Find(s.network, e.entityId), e).Some? {
      var item := PlanFor(planned, e).projection.value.item;
      assert item.(activeIncidents := {}) == Bare(ProjectionFor(Find(s.network, e.entityId), e).value);
    }
  }

  lemma TakesBares(before: map<Id, Entity>, after: map<Id, Entity>, events: seq<Event>, e: Event)
    requires Bares(before, Evidence.Arrived(Evidence.Ingestor, events)) && Takes(before, after, e)
    ensures Bares(after, Evidence.Arrived(Evidence.Ingestor, events + [e]))
  {
    var arrived := Evidence.Arrived(Evidence.Ingestor, events);
    assert (events + [e])[..|events|] == events;
    assert Evidence.Arrived(Evidence.Ingestor, events + [e]) == Evidence.Take(Evidence.Ingestor, arrived, e);
    var cur := Find(before, e.entityId);
    if ProjectionFor(cur, e).Some? {
      var item: Entity :| item.(activeIncidents := {}) == Bare(ProjectionFor(cur, e).value)
                          && after == before[e.entityId := item.(version := VersionOf(before, e.entityId) + 1)];
      SavedBares(before, arrived, e, item);
    } else {
      BareProjection(cur, Find(arrived, e.entityId), e);
    }
  }

  lemma AcceptedEvident(s: Bundle, planned: Bundle, e: Event)
    requires Processed(s, e, PlanFor(planned, e)).1.Accepted? && Filed(planned) && Later(planned, s) && Evident(s)
    ensures Evident(Processed(s, e, PlanFor(planned, e)).0)
  {
    AcceptedLog(s, planned, e);
    AcceptedTakes(s, planned, e);
    TakesBares(s.network, Processed(s, e, PlanFor(planned, e)).0.network, s.events, e);
  }

  /** The incident that an accepted plan lists exists afterwards. */
  lemma AcceptedListed(s: Bundle, planned: Bundle, e: Event)
    requires Processed(s, e, PlanFor(planned, e)).1.Accepted? && Filed(planned) && Later(planned, s)
    requires Canonical(e) && IncidentIdOf(e) !in s.incidents.items && Listed(s)
    ensures Listed(Processed(s, e, PlanFor(planned, e)).0)
  {
    var t := Processed(s, e, PlanFor(planned, e)).0;
    AcceptedNetwork(s, planned, e);
    AcceptedIncidents(s, planned, e);
    PlannedFromCurrent(s, planned, e);
    var item := ProjectionFor(Find(s.network, e.entityId), e);
    if item.Some? {
      if PlanFor(planned, e).incident.Some? { NobodyElseOpened(s, planned, e); }
      PlanListed(s, planned, e, t);
    }
  }

  lemma PlanListed(s: Bundle, planned: Bundle, e: Event, t: Bundle)
    requires Listed(s) && Find(planned.network, e.entityId) == Find(s.network, e.entityId) && ProjectionFor(Find(s.network, e.entityId), e).Some?
    requires t.network == s.network[e.entityId := PlanFor(planned, e).projection.value.item.(version := VersionOf(s.network, e.entityId) + 1)]
    requires var incident := PlanFor(planned, e).incident;
             t.incidents == if incident.Some? then s.incidents.CreateOrGetActive(incident.value).0 else s.incidents
    requires PlanFor(planned, e).incident.Some? ==> s.incidents.FindActive(e.correlationKey).None?
    requires forall x <- planned.incidents.items :: x in s.incidents.items
    ensures Listed(t)
  {
    var cur := Find(s.network, e.entityId);
    BareProjection(cur, if cur.None? then None else Some(Bare(cur.value)), e);
  }

  /** Nobody opened an incident of the cell between plan and transaction. */
  lemma NobodyElseOpened(s: Bundle, planned: Bundle, e: Event)
    requires Later(planned, s) && Canonical(e) && e.report.Congestion?
    requires VersionOf(planned.network, e.entityId) == VersionOf(s.network, e.entityId)
    requires planned.incidents.FindActive(e.correlationKey).None?
    ensures s.incidents.FindActive(e.correlationKey).None?
  {
    forall x | x in s.incidents.items
      ensures !s.incidents.IsActive(x, e.correlationKey)
    {
      assert s.incidents.items[x].correlationKey == CellKey(e.entityId) ==> x in planned.incidents.items;
      assert x in planned.incidents.items ==> !planned.incidents.IsActive(x, e.correlationKey);
    }
  }

  lemma StepInv(s: Bundle, planned: Bundle, op: Op)
    requires Inv(s) && Admissible(s, op) && Filed(planned) && Later(planned, s) && (!op.Ingest? ==> planned == s)
    ensures Inv(Apply(s, planned, op))
  {
    if op.Ingest? {
      if Processed(s, op.event, PlanFor(planned, op.event)).1.Accepted? {
        AcceptedLog(s, planned, op.event);
        AcceptedLogged(s, planned, op.event);
        AcceptedEvident(s, planned, op.event);
        AcceptedListed(s, planned, op.event);
      } else {
        NotAccepted(s, planned, op.event);
      }
    } else {
      MoveKnown(s, op);
    }
  }

  // ---------------------------------------------------------------- runs

  /** What the induction over a run needs of a step. */
  ghost predicate Carries(s: Bundle, planned: Bundle, t: Bundle) {
    Inv(s) && Filed(planned) && Later(planned, s) ==> Inv(t) && Later(s, t)
  }

  ghost predicate Carried(states: seq<Bundle>, ops: seq<Op>) {
    && |states| == |ops| + 1 && states[0] == Empty()
    && forall i, j :: 0 <= i < j < |states| && j == i + 1 ==> Carries(states[i], PlannedFrom(states, i, ops[i]), states[j])
  }

  lemma RunCarries(states: seq<Bundle>, ops: seq<Op>)
    requires Run(states, ops)
    ensures Carried(states, ops)
  {
    forall i, j | 0 <= i < j < |states| && j == i + 1
      ensures Carries(states[i], PlannedFrom(states, i, ops[i]), states[j])
    {
      var planned := PlannedFrom(states, i, ops[i]);
      assert Steps(states[i], planned, states[j], ops[i]);
      if Inv(states[i]) && Filed(planned) && Later(planned, states[i]) {
        StepInv(states[i], planned, ops[i]);
        StepLater(states[i], planned, ops[i]);
      }
    }
  }

  /** Every state up to `n` kept the invariant and came after the one before it. */
  ghost predicate Past(states: seq<Bundle>, n: nat)
    requires n < |states|
  {
    Inv(states[n]) && (n == 0 || (Past(states, n - 1) && Later(states[n - 1], states[n])))
  }

  lemma {:induction false} PastLater(states: seq<Bundle>, m: nat, n: nat)
    requires m <= n < |states| && Past(states, n)
    ensures Inv(states[m]) && Later(states[m], states[n])
    decreases n
  {
    if m == n {
      SelfLater(states[n], states[n]);
    } else {
      PastLater(states, m, n - 1);
      LaterTrans(states[m], states[n - 1], states[n]);
    }
  }

  lemma CarriedStep(states: seq<Bundle>, ops: seq<Op>, n: nat)
    requires Carried(states, ops) && n < |ops|
    ensures Carries(states[n], PlannedFrom(states, n, ops[n]), states[n + 1])
  {}

  lemma StepPast(states: seq<Bundle>, ops: seq<Op>, n: nat)
    requires Carried(states, ops) && n < |ops| && Past(states, n)
    ensures Past(states, n + 1)
  {
    CarriedStep(states, ops, n);
    PastLater(states, if ops[n].Ingest? && ops[n].seen <= n then ops[n].seen else n, n);
  }

  lemma EmptyInv(s: Bundle)
    requires s == Empty()
    ensures Inv(s)
  {}

  lemma {:induction false} CarriedPast(states: seq<Bundle>, ops: seq<Op>, n: nat)
    requires Carried(states, ops) && n <= |ops|
    ensures Past(states, n)
  {
    if n == 0 {
      EmptyInv(states[0]);
    } else {
      var i := n - 1;
      CarriedPast(states, ops, i);
      StepPast(states, ops, i);
    }
  }

  /** In every state of every run event identities and keys are unique, every key of the log is claimed,
      and every event of the log has its row in the outbox. */
  lemma LogComplete(states: seq<Bundle>, ops: seq<Op>, n: nat)
    requires Run(states, ops) && n <= |ops|
    ensures Logged(states[n])
  {
    RunCarries(states, ops);
    CarriedPast(states, ops, n);
  }

  /** However stale the plans, no update is lost: every channel of every stored entity shows exactly the
      newest accepted event, and every incident that an entity lists exists. */
  lemma StoredEvidenceIsNewest(states: seq<Bundle>, ops: seq<Op>, n: nat, id: Id, c: Channel)
    requires Run(states, ops) && n <= |ops|
    ensures Evidence.Shown(states[n].network, id, c) == Evidence.Seen(Evidence.Newest(states[n].events, id, c))
    ensures id in states[n].network ==> forall x <- states[n].network[id].activeIncidents :: x in states[n].incidents.items
  {
    RunCarries(states, ops);
    CarriedPast(states, ops, n);
    Evidence.ShowsTheNewest(Evidence.Ingestor, states[n].events, id, c);
    var arrived := Evidence.Arrived(Evidence.Ingestor, states[n].events);
    if id in states[n].network {
      assert Bare(states[n].network[id]) == arrived[id];
      assert Evidence.Shown(states[n].network, id, c) == Evidence.Shown(arrived, id, c);
    }
  }

  // ---------------------------------------------------------------- which events open incidents

  /** Only events have rows for events. */
  ghost predicate Rowed(s: Bundle) { forall id <- s.outbox :: id.OutEvent? ==> HasId(s.events, id.eventId) }

  lemma StepRowed(s: Bundle, planned: Bundle, op: Op)
    requires Admissible(s, op) && Rowed(s)
    ensures Rowed(Apply(s, planned, op))
  {
    if op.Ingest? {
      var e, t := op.event, Apply(s, planned, op);
      if Processed(s, e, PlanFor(planned, e)).1.Accepted? {
        AcceptedLog(s, planned, e);
        assert t.events[|s.events|] == e;
        forall x | x in s.events
          ensures x in t.events
        {}
      } else {
        NotAccepted(s, planned, e);
      }
    }
  }

  lemma {:induction false} RunRowed(states: seq<Bundle>, ops: seq<Op>, n: nat)
    requires Run(states, ops) && n <= |ops|
    ensures Rowed(states[n])
  {
    if n > 0 {
      var i := n - 1;
      RunRowed(states, ops, i);
      assert Steps(states[i], PlannedFrom(states, i, ops[i]), states[n], ops[i]);
      StepRowed(states[i], PlannedFrom(states, i, ops[i]), ops[i]);
    }
  }

  /** The entity lists an incident of the event's correlation, and one is active unless the one with which the event was
      planned was closed before the transaction. */
  ghost predicate Opens(planned: Bundle, s: Bundle, t: Bundle, e: Event) {
    && e.entityId in t.network
    && (exists x <- t.network[e.entityId].activeIncidents :: x in t.incidents.items && t.incidents.items[x].correlationKey == e.correlationKey)
    && (AnyActive(t, e.correlationKey) <==> !AnyActive(planned, e.correlationKey) || AnyActive(s, e.correlationKey))
    && Outbox.OutEvent(e.eventId) in t.outbox && t.outbox[Outbox.OutEvent(e.eventId)].kind == Outbox.IncidentReady
  }

  /** It opens nothing, and is announced to whoever shows the state of the network. */
  ghost predicate OpensNothing(s: Bundle, t: Bundle, e: Event) {
    && t.incidents == s.incidents
    && Outbox.OutEvent(e.eventId) in t.outbox && t.outbox[Outbox.OutEvent(e.eventId)].kind == Outbox.RuntimeViewRefresh
  }

  lemma AcceptedOpens(s: Bundle, planned: Bundle, e: Event, t: Bundle)
    requires Processed(s, e, PlanFor(planned, e)).1.Accepted? && t == Processed(s, e, PlanFor(planned, e)).0
    requires Filed(planned) && Later(planned, s) && Canonical(e) && Outbox.OutEvent(e.eventId) !in s.outbox
    ensures if e.report == Congestion(Some(High)) && !Outdated(planned, e) then Opens(planned, s, t, e) else OpensNothing(s, t, e)
  {
    AcceptedReports(planned, s, e, t);
    if e.report == Congestion(Some(High)) && !Outdated(planned, e) {
      HighReports(s, planned, e, t);
    }
  }

  /** The entity shows a later time than that of the event. */
  predicate Outdated(planned: Bundle, e: Event) {
    e.entityId in planned.network && ShowsLater(planned.network[e.entityId], e, None)
  }

  lemma HighReports(s: Bundle, planned: Bundle, e: Event, t: Bundle)
    requires Processed(s, e, PlanFor(planned, e)).1.Accepted? && t == Processed(s, e, PlanFor(planned, e)).0 && Reports(planned, s, t, e)
    requires Filed(planned) && Later(planned, s) && Canonical(e) && Outbox.OutEvent(e.eventId) !in s.outbox
    requires e.report == Congestion(Some(High)) && !Outdated(planned, e)
    ensures Opens(planned, s, t, e)
  {
    AcceptedNetwork(s, planned, e);
    PlannedShows(Find(planned.network, e.entityId), e);
    var x :| x in t.network[e.entityId].activeIncidents && Concerned(planned, s, t, e, x);
    ConcernedOpens(s, planned, e, t, x);
  }

  lemma ConcernedOpens(s: Bundle, planned: Bundle, e: Event, t: Bundle, x: Id)
    requires Concerned(planned, s, t, e, x) && Later(planned, s) && Canonical(e) && e.report.Congestion?
    requires VersionOf(planned.network, e.entityId) == VersionOf(s.network, e.entityId)
    ensures x in t.incidents.items && t.incidents.items[x].correlationKey == e.correlationKey
    ensures AnyActive(t, e.correlationKey) <==> !AnyActive(planned, e.correlationKey) || AnyActive(s, e.correlationKey)
  {
    if !planned.incidents.IsActive(x, e.correlationKey) { NobodyElseOpened(s, planned, e); }
  }

  /** Which events open incidents, however stale the plans: the High congestions that were not outdated when they were
      planned, and no others. */
  lemma HighOpensIncident(states: seq<Bundle>, ops: seq<Op>, i: nat)
    requires Run(states, ops) && i < |ops| && ops[i].Ingest?
    requires Processed(states[i], ops[i].event, PlanFor(PlannedFrom(states, i, ops[i]), ops[i].event)).1.Accepted?
    ensures var e, planned := ops[i].event, PlannedFrom(states, i, ops[i]);
            if e.report == Congestion(Some(High)) && !Outdated(planned, e) then Opens(planned, states[i], states[i + 1], e)
            else OpensNothing(states[i], states[i + 1], e)
  {
    RunCarries(states, ops);
    CarriedPast(states, ops, i);
    PastLater(states, if ops[i].seen <= i then ops[i].seen else i, i);
    RunRowed(states, ops, i);
    assert Steps(states[i], PlannedFrom(states, i, ops[i]), states[i + 1], ops[i]);
    AcceptedLog(states[i], PlannedFrom(states, i, ops[i]), ops[i].event);
    AcceptedOpens(states[i], PlannedFrom(states, i, ops[i]), ops[i].event, states[i + 1]);
  }

  /** A High congestion of a cell, reported at `at` under identity `id`. */
  function HighOf(cell: Id, id: Id, at: int): Event {
    Event(id, id, CellKey(cell), cell, [], Congestion(Some(High)), at, at, [])
  }

  lemma FirstHigh(cell: Id, at: int, t: Bundle)
    requires t == Processed(Empty(), HighOf(cell, "1", at), PlanFor(Empty(), HighOf(cell, "1", at))).0
    ensures var e, x := HighOf(cell, "1", at), IncidentIdOf(HighOf(cell, "1", at));
            && t.incidents.items.Keys == {x} == t.incidents.log.Keys && OpenedBy(t.incidents.items[x], e)
            && t.events == [e] && t.keys == {"1"} && t.claimed == map["1" := "1"]
            && cell in t.network && t.network[cell].congestionAt == Some(at) && t.network[cell].entityId == cell
  {
    var e := HighOf(cell, "1", at);
    var plan := PlanFor(Empty(), e);
    assert Empty().incidents.FindActive(e.correlationKey).None?;
    assert plan.incident == Some(IncidentFor(e)) && plan.projection.Some? && plan.projection.value.item.congestionAt == Some(at)
           && plan.projection.value.item.entityId == cell;
    assert Processed(Empty(), e, plan).1.Accepted?;
    AcceptedWrites(Empty(), e, plan, t, RowFor(e, true));
    AcceptedLog(Empty(), Empty(), e);
  }

  lemma SecondHigh(cell: Id, at: int, planned: Bundle, s: Bundle, t: Bundle)
    requires cell in planned.network && planned.network[cell].congestionAt == Some(at) && planned.network[cell].entityId == cell
    requires s.network == planned.network
    requires AnyActive(planned, CellKey(cell)) && "2" !in s.claimed && "2" !in s.keys && !HasId(s.events, "2")
    requires t == Processed(s, HighOf(cell, "2", at), PlanFor(planned, HighOf(cell, "2", at))).0
    ensures Processed(s, HighOf(cell, "2", at), PlanFor(planned, HighOf(cell, "2", at))).1.Accepted? && t.incidents == s.incidents
    ensures !Outdated(planned, HighOf(cell, "2", at))
  {
    var f := HighOf(cell, "2", at);
    assert planned.incidents.FindActive(CellKey(cell)).Some?;
    assert PlanFor(planned, f).incident.None?;
    assert Processed(s, f, PlanFor(planned, f)).1.Accepted?;
    AcceptedIncidents(s, planned, f);
  }

  /** An operator cancels the incident. */
  lemma CancelsTheOnly(x: Id, key: Id, at: int, s: Bundle, t: Bundle)
    requires s.incidents.items.Keys == {x} && s.incidents.items[x].state == Detected
    requires t == Apply(s, s, Move(x, Cancelled, at))
    ensures t == s.(incidents := t.incidents) && !AnyActive(t, key) && t.incidents.items.Keys == {x}
  {}

  lemma DifferentIncidents(cell: Id, at: int)
    ensures IncidentIdOf(HighOf(cell, "2", at)) != IncidentIdOf(HighOf(cell, "1", at))
  {
    var x, y := IncidentIdOf(HighOf(cell, "1", at)), IncidentIdOf(HighOf(cell, "2", at));
    assert x[|x| - 1] == '1' && y[|y| - 1] == '2';
  }

  lemma CancelledStates(cell: Id, at: int, ops: seq<Op>, s1: Bundle, s2: Bundle, s3: Bundle)
    requires ops == [Ingest(HighOf(cell, "1", at), 0), Move(IncidentIdOf(HighOf(cell, "1", at)), Cancelled, at), Ingest(HighOf(cell, "2", at), 1)]
    requires s1 == Apply(Empty(), Empty(), ops[0]) && s2 == Apply(s1, s1, ops[1]) && s3 == Apply(s2, s1, ops[2])
    ensures Steps(Empty(), Empty(), s1, ops[0]) && Steps(s1, s1, s2, ops[1]) && Steps(s2, s1, s3, ops[2])
    ensures var f := HighOf(cell, "2", at);
            Processed(s2, f, PlanFor(s1, f)).1.Accepted? && !Outdated(s1, f) && !AnyActive(s3, CellKey(cell))
  {
    var x := IncidentIdOf(HighOf(cell, "1", at));
    FirstHigh(cell, at, s1);
    assert s1.incidents.IsActive(x, CellKey(cell));
    CancelsTheOnly(x, CellKey(cell), at, s1, s2);
    SecondHigh(cell, at, s1, s2, s3);
    DifferentIncidents(cell, at);
  }

  /** And that can happen, for every cell at every time: an operator cancels the incident after the ingestor has read
      the state, and the next High congestion of the cell opens none. */
  lemma CancelledMeanwhile(cell: Id, at: int) returns (states: seq<Bundle>, ops: seq<Op>)
    ensures Run(states, ops) && HighOpensNone(states, ops, cell, 2)
  {
    ops := [Ingest(HighOf(cell, "1", at), 0), Move(IncidentIdOf(HighOf(cell, "1", at)), Cancelled, at), Ingest(HighOf(cell, "2", at), 1)];
    var s1 := Apply(Empty(), Empty(), ops[0]);
    var s2 := Apply(s1, s1, ops[1]);
    var s3 := Apply(s2, s1, ops[2]);
    states := [Empty(), s1, s2, s3];
    CancelledStates(cell, at, ops, s1, s2, s3);
    ThreeSteps(states, ops);
    NoneIsOpened(states, ops, cell);
  }

  lemma ThreeSteps(states: seq<Bundle>, ops: seq<Op>)
    requires |states| == 4 && |ops| == 3 && states[0] == Empty()
    requires !ops[1].Ingest? && ops[2].Ingest? && ops[2].seen == 1
    requires Steps(states[0], states[0], states[1], ops[0]) && Steps(states[1], states[1], states[2], ops[1])
    requires Steps(states[2], states[1], states[3], ops[2])
    requires ops[0].Ingest? && ops[0].seen == 0
    ensures Run(states, ops)
  {
    assert PlannedFrom(states, 0, ops[0]) == states[0] && PlannedFrom(states, 1, ops[1]) == states[1];
    assert PlannedFrom(states, 2, ops[2]) == states[1];
  }

  lemma NoneIsOpened(states: seq<Bundle>, ops: seq<Op>, cell: Id)
    requires |states| == 4 && |ops| == 3 && ops[2].Ingest? && ops[2].seen == 1
    requires var f := ops[2].event;
             && f.entityId == cell && f.report == Congestion(Some(High)) && !Outdated(states[1], f)
             && Processed(states[2], f, PlanFor(states[1], f)).1.Accepted? && !AnyActive(states[3], f.correlationKey)
    ensures HighOpensNone(states, ops, cell, 2)
  {}

  /** An accepted High congestion that is not outdated leaves its cell without an active incident. */
  ghost predicate HighOpensNone(states: seq<Bundle>, ops: seq<Op>, cell: Id, i: nat) {
    && i < |ops| && |states| == |ops| + 1 && ops[i].Ingest?
    && var e, planned := ops[i].event, PlannedFrom(states, i, ops[i]);
    && e.entityId == cell && e.report == Congestion(Some(High)) && !Outdated(planned, e)
    && Processed(states[i], e, PlanFor(planned, e)).1.Accepted? && !AnyActive(states[i + 1], e.correlationKey)
  }
}
