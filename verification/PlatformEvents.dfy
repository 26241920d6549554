/** Normalised platform events and the network entities they are projected into (platform_events.py,
    `_project_event` of durable_core.py and `_projection_for` of runtime_events.py). */
module PlatformEvents {
  import opened Options
  import opened DurableCore
  import IR = IncidentRepository

  datatype Level = High | Medium | OtherLevel(name: Id)

  /** What an event reports; payloads other than the congestion level are opaque. */
  datatype Report = Congestion(level: Option<Level>) | Reachability(summary: Id) | Location(summary: Id) | OtherReport

  datatype Event = Event(
    eventId: Id, idempotencyKey: Id, correlationKey: Id, entityId: Id, entityType: Id,
    report: Report, sourceTimestamp: int, createdAt: int, provenance: Id)

  datatype Operational = Monitoring | IncidentOpen | Watching | Stable

  datatype Entity = Entity(
    entityId: Id, entityType: Id,
    congestion: Option<Level>, congestionAt: Option<int>,
    reachability: Option<Id>, reachabilityAt: Option<int>,
    location: Option<Id>, locationAt: Option<int>,
    operational: Option<Operational>, operationalAt: Option<int>,
    provenance: Id, changedAt: Option<int>, updatedAt: int, activeIncidents: set<Id>, version: nat)

  datatype Channel = CongestionChannel | ReachabilityChannel | LocationChannel

  function ChannelOf(r: Report): Option<Channel> {
    match r
    case Congestion(_) => Some(CongestionChannel)
    case Reachability(_) => Some(ReachabilityChannel)
    case Location(_) => Some(LocationChannel)
    case OtherReport => None
  }

  function ObservedAt(e: Entity, c: Channel): Option<int> {
    match c case CongestionChannel => e.congestionAt case ReachabilityChannel => e.reachabilityAt case LocationChannel => e.locationAt
  }

  function OperationalOf(level: Option<Level>): Operational {
    if level == Some(High) then IncidentOpen else if level == Some(Medium) then Watching else Stable
  }

  /** The fields that the report of an event sets. */
  function Observed(item: Entity, e: Event): Entity {
    match e.report
    case Congestion(level) =>
      item.(congestion := level, congestionAt := Some(e.sourceTimestamp), operational := Some(OperationalOf(level)),
            operationalAt := Some(e.createdAt))
    case Reachability(summary) => item.(reachability := Some(summary), reachabilityAt := Some(e.sourceTimestamp))
    case Location(summary) => item.(location := Some(summary), locationAt := Some(e.sourceTimestamp))
    case OtherReport => item
  }

  function NewEntity(e: Event, operational: Option<Operational>): Entity {
    Entity(e.entityId, e.entityType, None, None, None, None, None, None, operational, None, e.provenance, None, e.createdAt, {}, 0)
  }

  // ---------------------------------------------------------------- the two projections

  /** The staleness test of `_project_event`: a missing or zero time counts as 0. */
  predicate StaleForCore(current: Option<Entity>, e: Event) {
    current.Some? && ChannelOf(e.report).Some?
      && e.sourceTimestamp < ObservedAt(current.value, ChannelOf(e.report).value).Or(Some(0)).value
  }

  /** The item that `_project_event` saves, before the repository counts its version. */
  function ProjectedByCore(current: Option<Entity>, e: Event): Option<Entity> {
    if StaleForCore(current, e) then None
    else
      var item := if current.Some? then current.value else NewEntity(e, None);
      Some(Observed(item.(provenance := e.provenance, changedAt := Some(e.createdAt), updatedAt := e.createdAt), e))
  }

  /** The staleness test of `_projection_for`: a missing time never makes an event stale. */
  predicate StaleForIngestor(current: Option<Entity>, e: Event)
    requires ChannelOf(e.report).Some?
  {
    && current.Some?
    && var at := ObservedAt(current.value, ChannelOf(e.report).value); at.Some? && e.sourceTimestamp < at.value
  }

  /** `_projection_for`. */
  function ProjectionFor(current: Option<Entity>, e: Event): Option<Entity> {
    if ChannelOf(e.report).None? || StaleForIngestor(current, e) then None
    else
      var item := if current.Some? then current.value else NewEntity(e, Some(Monitoring));
      Some(Observed(item.(entityType := e.entityType, provenance := e.provenance, changedAt := Some(e.createdAt), updatedAt := e.createdAt), e))
  }

  predicate IsHighCongestion(e: Event) { e.report == Congestion(Some(High)) }

  /** The text whose hash names the incident an event opens; the hash is taken to be injective on such pairs. */
  function IncidentIdOf(e: Event): Id { e.correlationKey + ['|'] + e.eventId }

  /** `_open_incident` and `_incident_for`: the incident that the event opens. */
  function IncidentFor(e: Event): IR.Incident {
    IR.Incident(IncidentIdOf(e), e.correlationKey, e.entityId, e.eventId, Detected, 0, IR.Undecided,
                VerificationState.Pending, RecoveryState.Pending, IR.Open, e.createdAt, e.createdAt, None, 0)
  }

  // ---------------------------------------------------------------- what an event leaves

  /** The channel that the event reports on shows a later time. */
  predicate ShowsLater(item: Entity, e: Event, missing: Option<int>) {
    match e.report
    case Congestion(_) => LaterThan(item.congestionAt.Or(missing), e.sourceTimestamp)
    case Reachability(_) => LaterThan(item.reachabilityAt.Or(missing), e.sourceTimestamp)
    case Location(_) => LaterThan(item.locationAt.Or(missing), e.sourceTimestamp)
    case OtherReport => false
  }

  predicate LaterThan(at: Option<int>, time: int) { at.Some? && time < at.value }

  /** The entity shows what the event reports: of a congestion the level, and with it the operational state; of every
      other report its summary, with the operational state as it was. */
  predicate Shows(before: Option<Entity>, after: Entity, e: Event, unknown: Option<Operational>) {
    && after.entityId == (if before.Some? then before.value.entityId else e.entityId) && after.provenance == e.provenance
    && after.changedAt == Some(e.createdAt) && after.updatedAt == e.createdAt
    && (if e.report.Congestion? then
          && after.congestion == e.report.level && after.congestionAt == Some(e.sourceTimestamp) && after.operationalAt == Some(e.createdAt)
          && after.operational == (if e.report.level == Some(High) then Some(IncidentOpen)
                                   else if e.report.level == Some(Medium) then Some(Watching) else Some(Stable))
        else after.operational == if before.Some? then before.value.operational else unknown)
    && (e.report.Reachability? ==> after.reachability == Some(e.report.summary) && after.reachabilityAt == Some(e.sourceTimestamp))
    && (e.report.Location? ==> after.location == Some(e.report.summary) && after.locationAt == Some(e.sourceTimestamp))
  }

  /** A new incident, opened by this event for its correlation and its entity. */
  predicate OpenedBy(i: IR.Incident, e: Event) {
    && i.state == Detected && i.correlationKey == e.correlationKey && i.primaryEntity == e.entityId && i.triggerEventId == e.eventId
    && i.warden == IR.Undecided && i.openedAt == e.createdAt && i.version == 0
  }
}
