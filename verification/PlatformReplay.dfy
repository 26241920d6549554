/** The event-sourced core: `append_event` with its projection, and `replay_projection` from the log
    (DurablePlatformCore of durable_core.py). */
module PlatformReplay {
  import opened Options
  import opened DurableCore
  import opened PlatformEvents
  import IR = IncidentRepository

  datatype CoreState = CoreState(
    events: seq<Event>, keys: set<Id>, claimed: map<Id, Id>,
    network: map<Id, Entity>, cache: map<Id, Entity>, incidents: IR.IncidentStore)

  datatype Result = Accepted | Duplicate | Conflicted

  function Empty(): CoreState { CoreState([], {}, map[], map[], map[], IR.IncidentStore(map[], map[])) }

  function Find(m: map<Id, Entity>, id: Id): Option<Entity> { if id in m then Some(m[id]) else None }

  function VersionOf(e: Option<Entity>): nat { if e.Some? then e.value.version else 0 }

  /** `network.save`: `None` is VersionConflict. */
  function Save(network: map<Id, Entity>, id: Id, item: Entity, expected: nat): Option<map<Id, Entity>> {
    if VersionOf(Find(network, id)) != expected then None else Some(network[id := item.(version := expected + 1)])
  }

  // ---------------------------------------------------------------- what the methods do to the state

  predicate HasId(events: seq<Event>, id: Id) { exists e <- events :: e.eventId == id }

  /** `_open_incident`: the second save marks the entity, when the incident is new. */
  ghost function OpenIncident(s: CoreState, e: Event): (CoreState, Result)
    requires e.entityId in s.cache
  {
    var created := s.incidents.FindActive(e.correlationKey).None?;
    var s1 := s.(incidents := s.incidents.CreateOrGetActive(IncidentFor(e)).0);
    if !created then (s1, Accepted)
    else
      var entity := s1.cache[e.entityId];
      match Save(s1.network, e.entityId, entity.(activeIncidents := entity.activeIncidents + {IncidentIdOf(e)}), entity.version)
      case None => (s1, Conflicted)
      case Some(network) => (s1.(network := network, cache := s1.cache[e.entityId := network[e.entityId]]), Accepted)
  }

  /** `_project_event`. */
  ghost function Project(s: CoreState, e: Event): (CoreState, Result) {
    match ProjectedByCore(Find(s.cache, e.entityId), e)
    case None => (s, Accepted)
    case Some(item) =>
      match Save(s.network, e.entityId, item, VersionOf(Find(s.cache, e.entityId)))
      case None => (s, Conflicted)
      case Some(network) =>
        var s1 := s.(network := network, cache := s.cache[e.entityId := network[e.entityId]]);
        if IsHighCongestion(e) then OpenIncident(s1, e) else (s1, Accepted)
  }

  predicate Refuses(s: CoreState, e: Event) {
    e.idempotencyKey in s.claimed || HasId(s.events, e.eventId) || e.idempotencyKey in s.keys
  }

  /** `append_event`.  A refused event still claims its key. */
  ghost function Append(s: CoreState, e: Event): (CoreState, Result) {
    if e.idempotencyKey in s.claimed then (s, Duplicate)
    else
      var s1 := s.(claimed := s.claimed[e.idempotencyKey := e.eventId]);
      if Refuses(s, e) then (s1, Duplicate)
      else Project(s1.(events := s.events + [e], keys := s.keys + {e.idempotencyKey}), e)
  }

  // ---------------------------------------------------------------- what an event makes of the state

  /** A known event changes nothing but, at most, the claim of its key; a new one is logged and projected. */
  ghost predicate TakesIn(s: CoreState, v: CoreState, e: Event, r: Result) {
    if e.idempotencyKey in s.claimed then v == s && r == Duplicate
    else
      && v.claimed == s.claimed[e.idempotencyKey := e.eventId]
      && if HasId(s.events, e.eventId) || e.idempotencyKey in s.keys then v == s.(claimed := v.claimed) && r == Duplicate
         else
           && v.events == s.events + [e] && v.keys == s.keys + {e.idempotencyKey} && r != Duplicate
           && (r == Accepted ==> Projects(s, v, e))
  }

  /** An outdated event leaves entities and incidents alone.  Any other is shown by its entity, and a High congestion,
      and nothing else, sees to it that its correlation has an active incident: one that was there, or its own, which
      the entity then lists. */
  ghost predicate Projects(s: CoreState, v: CoreState, e: Event) {
    var before := Find(s.cache, e.entityId);
    if before.Some? && ShowsLater(before.value, e, Some(0)) then v.network == s.network && v.cache == s.cache && v.incidents == s.incidents
    else
      && e.entityId in v.cache && e.entityId in v.network && v.network[e.entityId] == v.cache[e.entityId]
      && Shows(before, v.cache[e.entityId], e, None)
      && if e.report != Congestion(Some(High)) then v.incidents == s.incidents
         else if exists x :: s.incidents.IsActive(x, e.correlationKey) then v.incidents == s.incidents
         else
           var id := IncidentIdOf(e);
           && v.incidents.IsActive(id, e.correlationKey) && OpenedBy(v.incidents.items[id], e)
           && id in v.cache[e.entityId].activeIncidents
           && forall x <- s.incidents.items :: x != id ==> x in v.incidents.items && v.incidents.items[x] == s.incidents.items[x]
  }

  lemma ProjectedShows(current: Option<Entity>, e: Event)
    ensures var item := ProjectedByCore(current, e);
            if current.Some? && ShowsLater(current.value, e, Some(0)) then item.None? else item.Some? && Shows(current, item.value, e, None)
  {}

  lemma OpenProjects(s: CoreState, e: Event)
    requires e.entityId in s.cache && e.entityId in s.network && s.network[e.entityId] == s.cache[e.entityId]
    ensures var (v, r) := OpenIncident(s, e);
            && r == Accepted && v.events == s.events && v.keys == s.keys && v.claimed == s.claimed
            && e.entityId in v.cache && e.entityId in v.network && v.network[e.entityId] == v.cache[e.entityId]
            && v.cache[e.entityId].(activeIncidents := {}, version := 0) == s.cache[e.entityId].(activeIncidents := {}, version := 0)
            && if exists x :: s.incidents.IsActive(x, e.correlationKey) then v.incidents == s.incidents
               else
                 var id := IncidentIdOf(e);
                 && v.incidents.IsActive(id, e.correlationKey) && OpenedBy(v.incidents.items[id], e)
                 && id in v.cache[e.entityId].activeIncidents
                 && forall x <- s.incidents.items :: x != id ==> x in v.incidents.items && v.incidents.items[x] == s.incidents.items[x]
  {
    assert s.incidents.FindActive(e.correlationKey).Some? <==> exists x :: s.incidents.IsActive(x, e.correlationKey);
  }

  lemma ProjectProjects(s: CoreState, e: Event)
    ensures var (v, r) := Project(s, e);
            && v.events == s.events && v.keys == s.keys && v.claimed == s.claimed && r != Duplicate
            && (r == Accepted ==> Projects(s, v, e))
  {
    var current := Find(s.cache, e.entityId);
    ProjectedShows(current, e);
    var item := ProjectedByCore(current, e);
    if item.Some? {
      var saved := Save(s.network, e.entityId, item.value, VersionOf(current));
      if saved.Some? {
        var s1 := s.(network := saved.value, cache := s.cache[e.entityId := saved.value[e.entityId]]);
        if e.report == Congestion(Some(High)) { OpenProjects(s1, e); }
      }
    }
  }

  lemma AppendTakesIn(s: CoreState, e: Event)
    ensures var (v, r) := Append(s, e); TakesIn(s, v, e, r)
  {
    if !Refuses(s, e) {
      ProjectProjects(s.(claimed := s.claimed[e.idempotencyKey := e.eventId], events := s.events + [e],
                         keys := s.keys + {e.idempotencyKey}), e);
    }
  }

  /** The state of a fresh core that was fed `events` in order. */
  ghost function Replayed(events: seq<Event>): CoreState {
    if events == [] then Empty() else Append(Replayed(events[..|events| - 1]), events[|events| - 1]).0
  }

  // ---------------------------------------------------------------- the core

  class DurablePlatformCore {
    const incidents: IR.IncidentRepository
    var events: seq<Event>
    var keys: set<Id>
    var claimed: map<Id, Id>
    var network: map<Id, Entity>
    var cache: map<Id, Entity>

    ghost function State(): CoreState
      reads this, incidents
    {
      CoreState(events, keys, claimed, network, cache, incidents.Store())
    }

    ghost predicate Valid()
      reads this, incidents
    {
      IR.Valid(incidents.Store())
    }

    constructor ()
      ensures Valid() && fresh(incidents) && State() == Empty()
    {
      incidents := new IR.IncidentRepository();
      events, keys, claimed, network, cache := [], {}, map[], map[], map[];
    }

    /** `append_event`. */
    method AppendEvent(e: Event) returns (r: Result)
      requires Valid()
      modifies this, incidents
      ensures Valid() && (State(), r) == old(Append(State(), e))
      ensures TakesIn(old(State()), State(), e, r)
    {
      AppendTakesIn(State(), e);
      if e.idempotencyKey in claimed { return Duplicate; }
      claimed := claimed[e.idempotencyKey := e.eventId];
      if e.idempotencyKey in keys || exists known <- events :: known.eventId == e.eventId { return Duplicate; }
      events := events + [e];
      keys := keys + {e.idempotencyKey};
      r := ProjectEvent(e);
    }

    /** `_project_event`. */
    method ProjectEvent(e: Event) returns (r: Result)
      requires Valid()
      modifies this`network, this`cache, incidents
      ensures Valid() && (State(), r) == old(Project(State(), e))
    {
      var current := Find(cache, e.entityId);
      var item := ProjectedByCore(current, e);
      if item.None? { return Accepted; }
      var saved := Save(network, e.entityId, item.value, VersionOf(current));
      if saved.None? { return Conflicted; }
      network := saved.value;
      cache := cache[e.entityId := network[e.entityId]];
      if IsHighCongestion(e) { r := OpenIncidentFor(e); } else { r := Accepted; }
    }

    /** `_open_incident`. */
    method OpenIncidentFor(e: Event) returns (r: Result)
      requires Valid() && e.entityId in cache
      modifies this`network, this`cache, incidents
      ensures Valid() && (State(), r) == old(OpenIncident(State(), e))
    {
      var id, created := incidents.CreateOrGetActive(IncidentFor(e));
      if !created { return Accepted; }
      var entity := cache[e.entityId];
      var saved := Save(network, e.entityId, entity.(activeIncidents := entity.activeIncidents + {IncidentIdOf(e)}), entity.version);
      if saved.None? { return Conflicted; }
      network := saved.value;
      cache := cache[e.entityId := network[e.entityId]];
      return Accepted;
    }

    /** `replay_projection`: feeds the log to a fresh core, and leaves this one alone. */
    method ReplayProjection() returns (projection: map<Id, Entity>)
      ensures projection == Replayed(events).cache
    {
      var replay := new DurablePlatformCore();
      for n := 0 to |events|
        invariant fresh(replay) && fresh(replay.incidents) && replay.Valid()
        invariant replay.State() == Replayed(events[..n])
      {
        assert events[..n + 1][..n] == events[..n];
        var r := replay.AppendEvent(events[n]);
      }
      assert events[..|events|] == events;
      projection := replay.cache;
    }
  }
}
