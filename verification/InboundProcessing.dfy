/** The atomic inbound transaction over five repositories (InMemoryInboundEventRepository of
    durable_core.py) and the ingestor that plans it (runtime_events.py). */
module InboundProcessing {
  import opened Options
  import opened DurableCore
  import opened PlatformEvents
  import IR = IncidentRepository
  import Outbox = OutboxRepository

  // ---------------------------------------------------------------- values

  datatype Bundle = Bundle(
    events: seq<Event>, keys: set<Id>, claimed: map<Id, Id>,
    network: map<Id, Entity>, incidents: IR.IncidentStore, outbox: map<Outbox.OutboxId, Outbox.Row>)

  function Empty(): Bundle { Bundle([], {}, map[], map[], IR.IncidentStore(map[], map[]), map[]) }

  datatype Projection = Projection(item: Entity, expected: nat)

  datatype Transition = Transition(id: Id, to: IncidentState, at: int)

  datatype OutboxEntry = OutboxEntry(id: Outbox.OutboxId, row: Outbox.Row)

  /** What the ingestor hands to `process` with the event. */
  datatype Plan = Plan(projection: Option<Projection>, incident: Option<IR.Incident>, transition: Option<Transition>,
                       outbox: Option<OutboxEntry>)

  datatype Failure = VersionConflict | BadTransition

  datatype Answer = Accepted(created: bool) | Duplicate | Raised(why: Failure)

  function Find(m: map<Id, Entity>, id: Id): Option<Entity> { if id in m then Some(m[id]) else None }

  function VersionOf(m: map<Id, Entity>, id: Id): nat { if id in m then m[id].version else 0 }

  predicate HasId(events: seq<Event>, id: Id) { exists e <- events :: e.eventId == id }

  // ---------------------------------------------------------------- the transaction

  ghost function WithProjection(b: Bundle, p: Option<Projection>): Option<Bundle> {
    if p.None? then Some(b)
    else if VersionOf(b.network, p.value.item.entityId) != p.value.expected then None
    else Some(b.(network := b.network[p.value.item.entityId := p.value.item.(version := p.value.expected + 1)]))
  }

  ghost function WithIncident(b: Bundle, i: Option<IR.Incident>): Bundle {
    if i.None? then b else b.(incidents := b.incidents.CreateOrGetActive(i.value).0)
  }

  ghost predicate Creates(b: Bundle, i: Option<IR.Incident>) {
    i.Some? && b.incidents.FindActive(i.value.correlationKey).None?
  }

  ghost function WithTransition(b: Bundle, t: Option<Transition>): Option<Bundle> {
    if t.None? then Some(b)
    else match b.incidents.Transition(t.value.id, t.value.to, t.value.at)
      case Done(store) => Some(b.(incidents := store))
      case Refused(_) => None
  }

  ghost function WithOutbox(b: Bundle, o: Option<OutboxEntry>): Bundle {
    if o.None? then b else b.(outbox := Outbox.AppendRow(b.outbox, o.value.id, o.value.row))
  }

  /** The writes after the event was appended. */
  ghost function Committed(b: Bundle, plan: Plan): (Option<Bundle>, Answer) {
    match WithProjection(b, plan.projection)
    case None => (None, Raised(VersionConflict))
    case Some(b1) =>
      match WithTransition(WithIncident(b1, plan.incident), plan.transition)
      case None => (None, Raised(BadTransition))
      case Some(b2) => (Some(WithOutbox(b2, plan.outbox)), Accepted(Creates(b1, plan.incident)))
  }

  /** `process`: everything, or nothing.  A known event identity under a new key still claims the key. */
  ghost function Processed(b: Bundle, e: Event, plan: Plan): (Bundle, Answer) {
    if e.idempotencyKey in b.claimed then (b, Duplicate)
    else
      var b1 := b.(claimed := b.claimed[e.idempotencyKey := e.eventId]);
      if HasId(b.events, e.eventId) || e.idempotencyKey in b.keys then (b1, Duplicate)
      else
        match Committed(b1.(events := b.events + [e], keys := b.keys + {e.idempotencyKey}), plan)
        case (Some(b2), answer) => (b2, answer)
        case (None, answer) => (b, answer)
  }

  /** A raise leaves nothing, a duplicate at most its claim, and what is accepted is in the log. */
  lemma ProcessedKeeps(b: Bundle, e: Event, plan: Plan)
    ensures var (v, r) := Processed(b, e, plan);
            && (r.Raised? ==> v == b)
            && (r.Duplicate? ==> v == b.(claimed := v.claimed))
            && (r.Accepted? ==> v.events == b.events + [e] && v.claimed == b.claimed[e.idempotencyKey := e.eventId])
            && (!r.Raised? ==> (r.Duplicate? <==> e.idempotencyKey in b.claimed || HasId(b.events, e.eventId) || e.idempotencyKey in b.keys))
  {}

  // ---------------------------------------------------------------- repositories

  class EventRepository {
    var events: seq<Event>
    var keys: set<Id>

    constructor ()
      ensures events == [] && keys == {}
    {
      events, keys := [], {};
    }

    method Append(e: Event) returns (appended: bool)
      modifies this
      ensures appended <==> !HasId(old(events), e.eventId) && e.idempotencyKey !in old(keys)
      ensures events == if appended then old(events) + [e] else old(events)
      ensures keys == if appended then old(keys) + {e.idempotencyKey} else old(keys)
    {
      if e.idempotencyKey in keys || HasId(events, e.eventId) { return false; }
      events := events + [e];
      keys := keys + {e.idempotencyKey};
      return true;
    }
  }

  class NetworkStateRepository {
    var items: map<Id, Entity>

    constructor ()
      ensures items == map[]
    {
      items := map[];
    }

    method Save(item: Entity, expected: nat) returns (saved: bool)
      modifies this
      ensures saved <==> VersionOf(old(items), item.entityId) == expected
      ensures items == if saved then old(items)[item.entityId := item.(version := expected + 1)] else old(items)
    {
      if VersionOf(items, item.entityId) != expected { return false; }
      items := items[item.entityId := item.(version := expected + 1)];
      return true;
    }
  }

  class InboxRepository {
    var claimed: map<Id, Id>

    constructor ()
      ensures claimed == map[]
    {
      claimed := map[];
    }

    method Claim(key: Id, eventId: Id) returns (won: bool)
      modifies this
      ensures won <==> key !in old(claimed)
      ensures claimed == if won then old(claimed)[key := eventId] else old(claimed)
    {
      if key in claimed { return false; }
      claimed := claimed[key := eventId];
      return true;
    }
  }

  class InboundEventRepository {
    const events: EventRepository
    const network: NetworkStateRepository
    const incidents: IR.IncidentRepository
    const inbox: InboxRepository
    const outbox: Outbox.OutboxRepository

    constructor ()
      ensures fresh(Repr() - {this}) && Valid() && State() == Empty()
    {
      events := new EventRepository();
      network := new NetworkStateRepository();
      incidents := new IR.IncidentRepository();
      inbox := new InboxRepository();
      outbox := new Outbox.OutboxRepository();
    }

    ghost function Repr(): set<object> { {this, events, network, incidents, inbox, outbox} }

    ghost function State(): Bundle
      reads Repr()
    {
      Bundle(events.events, events.keys, inbox.claimed, network.items, incidents.Store(), outbox.rows)
    }

    ghost predicate Valid()
      reads Repr()
    {
      IR.Valid(incidents.Store()) && outbox.Valid()
    }

    /** `process`: writes repository after repository, and puts every one of them back when a write raises. */
    method Process(e: Event, plan: Plan) returns (r: Answer)
      requires Valid() && (plan.incident.Some? ==> plan.incident.value.state.Detected?)
      modifies events, network, incidents, inbox, outbox
      ensures Valid() && (State(), r) == old(Processed(State(), e, plan))
      ensures r.Raised? ==> State() == old(State())
      ensures r.Duplicate? ==> State() == old(State()).(claimed := State().claimed)
      ensures r.Accepted? ==> events.events == old(events.events) + [e] && inbox.claimed == old(inbox.claimed)[e.idempotencyKey := e.eventId]
      ensures !r.Raised? ==>
                (r.Duplicate? <==> e.idempotencyKey in old(inbox.claimed) || HasId(old(events.events), e.eventId)
                                   || e.idempotencyKey in old(events.keys))
    {
      var log, keys, claims, items := events.events, events.keys, inbox.claimed, network.items;
      var stored, transitions, rows, order := incidents.items, incidents.log, outbox.rows, outbox.order;
      ghost var s0 := State();
      r := Attempt(e, plan);
      if r.Raised? {
        events.events, events.keys, inbox.claimed, network.items := log, keys, claims, items;
        incidents.items, incidents.log, outbox.rows, outbox.order := stored, transitions, rows, order;
        assert incidents.Store() == old(incidents.Store());
      }
      ProcessedKeeps(s0, e, plan);
    }

    /** The writes, which a raise leaves half done. */
    method Attempt(e: Event, plan: Plan) returns (r: Answer)
      requires Valid() && (plan.incident.Some? ==> plan.incident.value.state.Detected?)
      modifies events, network, incidents, inbox, outbox
      ensures r == old(Processed(State(), e, plan)).1
      ensures !r.Raised? ==> Valid() && State() == old(Processed(State(), e, plan)).0
    {
      var won := inbox.Claim(e.idempotencyKey, e.eventId);
      if !won { return Duplicate; }
      var appended := events.Append(e);
      if !appended { return Duplicate; }
      r := Commit(plan);
    }

    /** The writes after the event was appended. */
    method Commit(plan: Plan) returns (r: Answer)
      requires Valid() && (plan.incident.Some? ==> plan.incident.value.state.Detected?)
      modifies network, incidents, outbox
      ensures r == old(Committed(State(), plan)).1
      ensures !r.Raised? ==> Valid() && Some(State()) == old(Committed(State(), plan)).0
      ensures r.Raised? ==> old(Committed(State(), plan)).0.None?
    {
      if plan.projection.Some? {
        var saved := network.Save(plan.projection.value.item, plan.projection.value.expected);
        if !saved { return Raised(VersionConflict); }
      }
      var created := CreateIncident(plan.incident);
      var moved := MoveIncident(plan.transition);
      if !moved { return Raised(BadTransition); }
      if plan.outbox.Some? {
        outbox.Append(plan.outbox.value.id, plan.outbox.value.row);
      }
      return Accepted(created);
    }

    method CreateIncident(i: Option<IR.Incident>) returns (created: bool)
      requires Valid() && (i.Some? ==> i.value.state.Detected?)
      modifies incidents
      ensures Valid() && State() == old(WithIncident(State(), i)) && created == old(Creates(State(), i))
    {
      if i.None? { return false; }
      var id;
      id, created := incidents.CreateOrGetActive(i.value);
    }

    method MoveIncident(t: Option<Transition>) returns (moved: bool)
      requires Valid()
      modifies incidents
      ensures moved <==> old(WithTransition(State(), t)).Some?
      ensures moved ==> Valid() && State() == old(WithTransition(State(), t)).value
    {
      if t.None? { return true; }
      IR.TransitionIsValid(incidents.Store(), t.value.id, t.value.to, t.value.at);
      var r := incidents.MoveTo(t.value.id, t.value.to, t.value.at);
      return r.Done?;
    }
  }

  // ---------------------------------------------------------------- the ingestor

  /** Network entities are filed under their identity. */
  predicate Filed(b: Bundle) { forall id <- b.network :: b.network[id].entityId == id }

  function RowFor(e: Event, ready: bool): OutboxEntry {
    OutboxEntry(Outbox.OutEvent(e.eventId),
                Outbox.NewRow(e.eventId, if ready then Outbox.IncidentReady else Outbox.RuntimeViewRefresh, e.createdAt))
  }

  /** `_plan`: what the stored state `b` makes of the event. */
  ghost function PlanFor(b: Bundle, e: Event): Plan {
    match ProjectionFor(Find(b.network, e.entityId), e)
    case None => Plan(None, None, None, Some(RowFor(e, false)))
    case Some(item) =>
      var expected := VersionOf(b.network, e.entityId);
      if !IsHighCongestion(e) then Plan(Some(Projection(item, expected)), None, None, Some(RowFor(e, false)))
      else
        var existing := b.incidents.FindActive(e.correlationKey);
        var listed := item.(activeIncidents := item.activeIncidents + {existing.Or(Some(IncidentIdOf(e))).value});
        Plan(Some(Projection(listed, expected)), if existing.Some? then None else Some(IncidentFor(e)), None, Some(RowFor(e, true)))
  }

  // ---------------------------------------------------------------- what an accepted event leaves

  /** The row of the event is in the outbox, and when it is new, it is PENDING for its kind of consumer. */
  predicate Announced(s: Bundle, t: Bundle, e: Event, ready: bool) {
    var id := Outbox.OutEvent(e.eventId);
    && id in t.outbox
    && (id !in s.outbox ==>
        t.outbox[id] == Outbox.Row(e.eventId, if ready then Outbox.IncidentReady else Outbox.RuntimeViewRefresh, e.createdAt,
                                   Outbox.RowState.Pending, None, 0, 0, 0, None))
  }

  /** What the transaction makes of an event that was planned in `planned`.  An event without a channel, or one that
      is outdated, leaves entities and incidents alone.  Any other is shown by its entity.  A High congestion, and
      nothing else, is announced as an incident: the entity lists the one that was active when it was planned, or else
      its own, and then its correlation has an active incident. */
  ghost predicate Reports(planned: Bundle, s: Bundle, t: Bundle, e: Event) {
    var before := Find(planned.network, e.entityId);
    && t.events == s.events + [e]
    && if e.report == OtherReport || (before.Some? && ShowsLater(before.value, e, None))
       then t.network == s.network && t.incidents == s.incidents && Announced(s, t, e, false)
       else
         && Announced(s, t, e, e.report == Congestion(Some(High)))
         && e.entityId in t.network && Shows(before, t.network[e.entityId], e, Some(Monitoring)) && t.network[e.entityId].entityType == e.entityType
         && if e.report != Congestion(Some(High)) then t.incidents == s.incidents
            else
              exists x <- t.network[e.entityId].activeIncidents :: Concerned(planned, s, t, e, x)
  }

  /** The incident `x` with which a High congestion is announced. */
  ghost predicate Concerned(planned: Bundle, s: Bundle, t: Bundle, e: Event, x: Id) {
    if planned.incidents.IsActive(x, e.correlationKey) then t.incidents == s.incidents
    else
      && x == IncidentIdOf(e) && !AnyActive(planned, e.correlationKey) && AnyActive(t, e.correlationKey)
      && (!AnyActive(s, e.correlationKey) ==> t.incidents.IsActive(x, e.correlationKey) && OpenedBy(t.incidents.items[x], e))
  }

  ghost predicate AnyActive(s: Bundle, correlation: Id) { exists x :: s.incidents.IsActive(x, correlation) }

  lemma PlannedShows(current: Option<Entity>, e: Event)
    ensures var item := ProjectionFor(current, e);
            if e.report == OtherReport || (current.Some? && ShowsLater(current.value, e, None)) then item.None?
            else item.Some? && Shows(current, item.value, e, Some(Monitoring)) && item.value.entityType == e.entityType
  {}

  function CellKey(entity: Id): Id { ['c', 'e', 'l', 'l', ':'] + entity }

  /** `_validate_runtime_event`: a congestion event is correlated by its cell. */
  predicate Canonical(e: Event) { e.report.Congestion? ==> e.correlationKey == CellKey(e.entityId) }

  /** What the transaction writes for a plan without a transition. */
  lemma AcceptedWrites(s: Bundle, e: Event, plan: Plan, t: Bundle, entry: OutboxEntry)
    requires plan.transition.None? && plan.outbox == Some(entry)
    requires Processed(s, e, plan).1.Accepted? && t == Processed(s, e, plan).0
    ensures t.events == s.events + [e] && t.outbox == Outbox.AppendRow(s.outbox, entry.id, entry.row)
    ensures t.incidents == if plan.incident.None? then s.incidents else s.incidents.CreateOrGetActive(plan.incident.value).0
    ensures if plan.projection.None? then t.network == s.network
            else
              var item := plan.projection.value.item;
              item.entityId in t.network && t.network[item.entityId] == item.(version := plan.projection.value.expected + 1)
  {}

  lemma RowAnnounces(s: Bundle, t: Bundle, e: Event, ready: bool)
    requires t.outbox == Outbox.AppendRow(s.outbox, RowFor(e, ready).id, RowFor(e, ready).row)
    ensures Announced(s, t, e, ready)
  {}

  lemma OpeningLists(planned: Bundle, s: Bundle, t: Bundle, e: Event, existing: Option<Id>)
    requires e.report == Congestion(Some(High)) && existing == planned.incidents.FindActive(e.correlationKey)
    requires t.incidents == if existing.Some? then s.incidents else s.incidents.CreateOrGetActive(IncidentFor(e)).0
    requires e.entityId in t.network && existing.Or(Some(IncidentIdOf(e))).value in t.network[e.entityId].activeIncidents
    ensures exists x <- t.network[e.entityId].activeIncidents :: Concerned(planned, s, t, e, x)
  {
    var x := existing.Or(Some(IncidentIdOf(e))).value;
    if existing.None? {
      var found := s.incidents.FindActive(e.correlationKey);
      assert t.incidents.IsActive(if found.Some? then found.value else x, e.correlationKey);
    }
  }

  lemma AcceptedReports(planned: Bundle, s: Bundle, e: Event, t: Bundle)
    requires Filed(planned) && Processed(s, e, PlanFor(planned, e)).1.Accepted? && t == Processed(s, e, PlanFor(planned, e)).0
    ensures Reports(planned, s, t, e)
  {
    var before := Find(planned.network, e.entityId);
    var item := ProjectionFor(before, e);
    PlannedShows(before, e);
    var ready := item.Some? && e.report == Congestion(Some(High));
    AcceptedWrites(s, e, PlanFor(planned, e), t, RowFor(e, ready));
    RowAnnounces(s, t, e, ready);
    if ready { OpeningLists(planned, s, t, e, planned.incidents.FindActive(e.correlationKey)); }
  }

  // ---------------------------------------------------------------- other ingestors

  /** The state after other ingestors took in `events`, each under a plan of its own. */
  ghost function Ingested(b: Bundle, events: seq<Event>): Bundle {
    if events == [] then b
    else
      var before, e := Ingested(b, events[..|events| - 1]), events[|events| - 1];
      Processed(before, e, PlanFor(before, e)).0
  }

  ghost function AfterRounds(b: Bundle, others: nat -> seq<Event>, n: nat): Bundle {
    if n == 0 then b else Ingested(AfterRounds(b, others, n - 1), others(n - 1))
  }

  lemma ProcessedGrows(b: Bundle, e: Event, id: Id)
    requires Filed(b)
    ensures var v := Processed(b, e, PlanFor(b, e)).0; Filed(v) && VersionOf(b.network, id) <= VersionOf(v.network, id)
  {
    PlanIsFiled(b, e);
    ProcessedSaves(b, e, PlanFor(b, e));
  }

  lemma PlanIsFiled(b: Bundle, e: Event)
    requires Filed(b)
    ensures var plan := PlanFor(b, e);
            plan.transition.None? && (plan.projection.Some? ==> plan.projection.value.item.entityId == e.entityId)
  {}

  lemma ProcessedSaves(b: Bundle, e: Event, plan: Plan)
    requires plan.transition.None?
    ensures var v := Processed(b, e, plan).0;
            v.network == b.network
            || (plan.projection.Some? && var item := plan.projection.value.item;
                v.network == b.network[item.entityId := item.(version := VersionOf(b.network, item.entityId) + 1)])
  {}

  lemma {:induction false} IngestedGrows(b: Bundle, events: seq<Event>, id: Id)
    requires Filed(b)
    ensures Filed(Ingested(b, events)) && VersionOf(b.network, id) <= VersionOf(Ingested(b, events).network, id)
  {
    if events != [] {
      IngestedGrows(b, events[..|events| - 1], id);
      ProcessedGrows(Ingested(b, events[..|events| - 1]), events[|events| - 1], id);
    }
  }

  /** A plan is refused only because the entity of its event was written since. */
  lemma ConflictNeedsOther(planned: Bundle, met: Bundle, e: Event)
    requires Filed(planned)
    ensures var answer := Processed(met, e, PlanFor(planned, e)).1;
            answer.Raised? ==> answer == Raised(VersionConflict) && VersionOf(met.network, e.entityId) != VersionOf(planned.network, e.entityId)
  {}

  lemma RaisedKeeps(b: Bundle, e: Event, plan: Plan)
    ensures Processed(b, e, plan).1.Raised? ==> Processed(b, e, plan).0 == b
  {}

  /** An attempt: the event is planned in `b`, and processed when others have taken in `events`. */
  ghost function Tried(b: Bundle, e: Event, events: seq<Event>): (Bundle, Answer) {
    Processed(Ingested(b, events), e, PlanFor(b, e))
  }

  /** An attempt fails only when others wrote the entity, and then it leaves nothing behind. */
  lemma TriedFacts(b: Bundle, e: Event, events: seq<Event>)
    requires Filed(b)
    ensures var (after, answer) := Tried(b, e, events);
            answer.Raised? ==>
              && answer == Raised(VersionConflict) && after == Ingested(b, events) && Filed(after)
              && VersionOf(b.network, e.entityId) < VersionOf(after.network, e.entityId)
  {
    IngestedGrows(b, events, e.entityId);
    ConflictNeedsOther(b, Ingested(b, events), e);
    RaisedKeeps(Ingested(b, events), e, PlanFor(b, e));
  }

  class RuntimeEventIngestor {
    const inbound: InboundEventRepository
    const maxAttempts: nat

    constructor (inbound: InboundEventRepository, maxAttempts: nat)
      ensures this.inbound == inbound && this.maxAttempts == maxAttempts
    {
      this.inbound, this.maxAttempts := inbound, maxAttempts;
    }

    /** `_plan`. */
    method MakePlan(e: Event) returns (plan: Plan)
      requires inbound.Valid()
      ensures plan == PlanFor(inbound.State(), e)
    {
      var item := ProjectionFor(Find(inbound.network.items, e.entityId), e);
      if item.None? { return Plan(None, None, None, Some(RowFor(e, false))); }
      var expected := VersionOf(inbound.network.items, e.entityId);
      if !IsHighCongestion(e) { return Plan(Some(Projection(item.value, expected)), None, None, Some(RowFor(e, false))); }
      var existing := inbound.incidents.ScanActive(e.correlationKey);
      var incident := if existing.Some? then None else Some(IncidentFor(e));
      var id := if existing.Some? then existing.value else IncidentIdOf(e);
      var listed := item.value.(activeIncidents := item.value.activeIncidents + {id});
      return Plan(Some(Projection(listed, expected)), incident, None, Some(RowFor(e, true)));
    }

    /** Other ingestors at work. */
    method Meanwhile(events: seq<Event>)
      requires inbound.Valid()
      modifies inbound.events, inbound.network, inbound.incidents, inbound.inbox, inbound.outbox
      ensures inbound.Valid() && inbound.State() == Ingested(old(inbound.State()), events)
    {
      for i := 0 to |events|
        invariant inbound.Valid() && inbound.State() == Ingested(old(inbound.State()), events[..i])
      {
        assert events[..i + 1][..i] == events[..i];
        var plan := MakePlan(events[i]);
        var answer := inbound.Process(events[i], plan);
      }
      assert events[..|events|] == events;
    }

    /** One attempt: the plan, what other ingestors take in meanwhile, and the transaction. */
    method Try(e: Event, others: seq<Event>) returns (answer: Answer)
      requires inbound.Valid()
      modifies inbound.events, inbound.network, inbound.incidents, inbound.inbox, inbound.outbox
      ensures inbound.Valid() && (inbound.State(), answer) == old(Tried(inbound.State(), e, others))
    {
      var plan := MakePlan(e);
      Meanwhile(others);
      answer := inbound.Process(e, plan);
    }

    /** `ingest_runtime_event`: plans, processes, and plans again after a version conflict; `others(n)` is what other
        ingestors take in between plan and transaction of attempt `n`.  The event is processed under the plan of its
        last attempt, and given up only when in every attempt others wrote its entity in between.  `None` is the
        refusal of an event that is not canonical. */
    method IngestRuntimeEvent(e: Event, others: nat -> seq<Event>) returns (r: Option<Answer>, ghost last: nat)
      requires inbound.Valid() && Filed(inbound.State())
      modifies inbound.events, inbound.network, inbound.incidents, inbound.inbox, inbound.outbox
      ensures inbound.Valid() && (r.None? <==> !Canonical(e))
      ensures r.None? ==> inbound.State() == old(inbound.State())
      ensures r.Some? ==> last < Attempts() && (inbound.State(), r.value) == Tried(AfterRounds(old(inbound.State()), others, last), e, others(last))
      ensures r.Some? && r.value.Accepted? ==>
                var planned := AfterRounds(old(inbound.State()), others, last);
                Reports(planned, Ingested(planned, others(last)), inbound.State(), e)
      ensures r.Some? && r.value.Raised? ==>
                && r.value == Raised(VersionConflict) && last == Attempts() - 1
                && inbound.State() == AfterRounds(old(inbound.State()), others, Attempts())
                && VersionOf(old(inbound.State()).network, e.entityId) + Attempts() <= VersionOf(inbound.State().network, e.entityId)
    {
      last := 0;
      if !Canonical(e) { return None, last; }
      var answer := Raised(VersionConflict);
      for attempt := 0 to Attempts()
        invariant inbound.Valid() && Filed(inbound.State()) && inbound.State() == AfterRounds(old(inbound.State()), others, attempt)
        invariant VersionOf(old(inbound.State()).network, e.entityId) + attempt <= VersionOf(inbound.State().network, e.entityId)
        invariant answer == Raised(VersionConflict)
        invariant 0 < attempt ==>
                    last == attempt - 1 && (inbound.State(), answer) == Tried(AfterRounds(old(inbound.State()), others, last), e, others(last))
      {
        last := attempt;
        ghost var planned := inbound.State();
        TriedFacts(planned, e, others(attempt));
        answer := Try(e, others(attempt));
        if answer != Raised(VersionConflict) {
          if answer.Accepted? { AcceptedReports(planned, Ingested(planned, others(attempt)), e, inbound.State()); }
          return Some(answer), last;
        }
      }
      return Some(answer), last;
    }

    function Attempts(): nat { if maxAttempts == 0 then 1 else maxAttempts }
  }
}
