/** Evidence converges: whatever order events arrive in, each channel of an entity shows its newest event. */
module EvidenceConvergence {
  import opened Options
  import opened DurableCore
  import opened PlatformEvents

  /** Which of the two projections reads the events. */
  datatype Reader = Core | Ingestor

  function Projected(r: Reader, current: Option<Entity>, e: Event): Option<Entity> {
    match r case Core => ProjectedByCore(current, e) case Ingestor => ProjectionFor(current, e)
  }

  function Find(network: map<Id, Entity>, id: Id): Option<Entity> { if id in network then Some(network[id]) else None }

  /** One event, projected and saved. */
  function Take(r: Reader, network: map<Id, Entity>, e: Event): map<Id, Entity> {
    match Projected(r, Find(network, e.entityId), e)
    case None => network
    case Some(item) => network[e.entityId := item.(version := item.version + 1)]
  }

  /** The network state after `events` arrived in this order. */
  function Arrived(r: Reader, events: seq<Event>): map<Id, Entity> {
    if events == [] then map[] else Take(r, Arrived(r, events[..|events| - 1]), events[|events| - 1])
  }

  // ---------------------------------------------------------------- what a channel shows

  /** The value of a channel: a level, or an opaque summary. */
  datatype Value = LevelValue(level: Option<Level>) | SummaryValue(summary: Option<Id>)

  datatype View = View(value: Value, at: int)

  function ValueOf(r: Report): Value
    requires !r.OtherReport?
  {
    match r case Congestion(level) => LevelValue(level) case Reachability(s) => SummaryValue(Some(s)) case Location(s) => SummaryValue(Some(s))
  }

  function ShownValue(n: Entity, c: Channel): Value {
    match c
    case CongestionChannel => LevelValue(n.congestion)
    case ReachabilityChannel => SummaryValue(n.reachability)
    case LocationChannel => SummaryValue(n.location)
  }

  /** Value and time of channel `c` of entity `id`, once it has been observed. */
  function Shown(network: map<Id, Entity>, id: Id, c: Channel): Option<View> {
    if id !in network || ObservedAt(network[id], c).None? then None
    else
      var n := network[id];
      Some(View(ShownValue(n, c), ObservedAt(n, c).value))
  }

  predicate Concerns(e: Event, id: Id, c: Channel) { e.entityId == id && ChannelOf(e.report) == Some(c) }

  /** The newest event for a channel: of events with the same source time, the last to arrive. */
  function Newest(events: seq<Event>, id: Id, c: Channel): (r: Option<Event>)
    ensures r.Some? ==> Concerns(r.value, id, c)
  {
    if events == [] then None
    else
      var before := Newest(events[..|events| - 1], id, c);
      var e := events[|events| - 1];
      if Concerns(e, id, c) && (before.None? || before.value.sourceTimestamp <= e.sourceTimestamp) then Some(e) else before
  }

  function Seen(e: Option<Event>): Option<View>
    requires e.Some? ==> !e.value.report.OtherReport?
  {
    match e case None => None case Some(n) => Some(View(ValueOf(n.report), n.sourceTimestamp))
  }

  lemma TakeShows(r: Reader, network: map<Id, Entity>, e: Event, id: Id, c: Channel)
    requires r.Core? ==> 0 <= e.sourceTimestamp
    ensures var was, now := Shown(network, id, c), Shown(Take(r, network, e), id, c);
            now == if Concerns(e, id, c) && (was.None? || was.value.at <= e.sourceTimestamp) then Seen(Some(e)) else was
  {}

  /** After any arrivals every channel of every entity shows exactly its newest event, value and time. */
  lemma {:induction false} ShowsTheNewest(r: Reader, events: seq<Event>, id: Id, c: Channel)
    requires r.Core? ==> forall e <- events :: 0 <= e.sourceTimestamp
    ensures Shown(Arrived(r, events), id, c) == Seen(Newest(events, id, c))
  {
    if events != [] {
      ShowsTheNewest(r, events[..|events| - 1], id, c);
      TakeShows(r, Arrived(r, events[..|events| - 1]), events[|events| - 1], id, c);
    }
  }

  lemma {:induction false} NewestIsNewest(events: seq<Event>, id: Id, c: Channel)
    ensures var n := Newest(events, id, c);
            && (n.Some? ==> n.value in events)
            && (forall e <- events :: Concerns(e, id, c) ==> n.Some? && e.sourceTimestamp <= n.value.sourceTimestamp)
  {
    if events != [] {
      var rest, last := events[..|events| - 1], events[|events| - 1];
      NewestIsNewest(rest, id, c);
      assert events == rest + [last];
    }
  }

  /** No two different events of one channel of one entity carry the same source time. */
  ghost predicate DistinctTimes(events: seq<Event>) {
    forall d, e, id, c :: d in events && e in events && Concerns(d, id, c) && Concerns(e, id, c) && d.sourceTimestamp == e.sourceTimestamp ==> d == e
  }

  /** Every arrival order, redeliveries included, leads to the same values and times. */
  lemma Converges(r: Reader, xs: seq<Event>, ys: seq<Event>, id: Id, c: Channel)
    requires forall e :: e in xs <==> e in ys
    requires DistinctTimes(xs) && (r.Core? ==> forall e <- xs :: 0 <= e.sourceTimestamp)
    ensures Shown(Arrived(r, xs), id, c) == Shown(Arrived(r, ys), id, c)
  {
    ShowsTheNewest(r, xs, id, c);
    ShowsTheNewest(r, ys, id, c);
    NewestIsNewest(xs, id, c);
    NewestIsNewest(ys, id, c);
  }

  /** The time of a channel never decreases, negative times included, and a channel once observed stays observed. */
  lemma {:induction false} TimesNeverDecrease(r: Reader, events: seq<Event>, m: nat, n: nat, id: Id, c: Channel)
    requires m <= n <= |events|
    ensures var was, now := Shown(Arrived(r, events[..m]), id, c), Shown(Arrived(r, events[..n]), id, c);
            was.Some? ==> now.Some? && was.value.at <= now.value.at
    decreases n
  {
    if m < n {
      TimesNeverDecrease(r, events, m, n - 1, id, c);
      assert events[..n][..n - 1] == events[..n - 1];
      TakeRises(r, Arrived(r, events[..n - 1]), events[n - 1], id, c);
    }
  }

  lemma TakeRises(r: Reader, network: map<Id, Entity>, e: Event, id: Id, c: Channel)
    ensures var was, now := Shown(network, id, c), Shown(Take(r, network, e), id, c);
            was.Some? ==> now.Some? && was.value.at <= now.value.at
  {
    match r
    case Core => CoreTakes(network, e, id, c);
    case Ingestor => TakeShows(r, network, e, id, c);
  }

  // ---------------------------------------------------------------- negative times

  /** The event that made entity `id` known. */
  function FirstOf(events: seq<Event>, id: Id): (r: Option<Event>)
    ensures r.Some? ==> r.value in events && r.value.entityId == id
  {
    if events == [] then None
    else
      var before := FirstOf(events[..|events| - 1], id);
      if before.None? && events[|events| - 1].entityId == id then Some(events[|events| - 1]) else before
  }

  /** The core takes the missing time of a channel for 0, so on an entity that an event of another channel
      made known it refuses every negative time. */
  predicate Unseen(events: seq<Event>, id: Id, c: Channel) {
    && Newest(events, id, c).Some? && Newest(events, id, c).value.sourceTimestamp < 0
    && FirstOf(events, id).Some? && !Concerns(FirstOf(events, id).value, id, c)
  }

  /** What the core shows after any arrivals, negative times included. */
  lemma {:induction false} CoreShows(events: seq<Event>, id: Id, c: Channel)
    ensures Shown(Arrived(Core, events), id, c) == if Unseen(events, id, c) then None else Seen(Newest(events, id, c))
    ensures id in Arrived(Core, events) <==> FirstOf(events, id).Some?
    ensures Newest(events, id, c).Some? ==> FirstOf(events, id).Some?
  {
    if events != [] {
      var rest, e := events[..|events| - 1], events[|events| - 1];
      CoreShows(rest, id, c);
      NewestIsNewest(rest, id, c);
      CoreTakes(Arrived(Core, rest), e, id, c);
    }
  }

  /** One event, at any time. */
  lemma CoreTakes(network: map<Id, Entity>, e: Event, id: Id, c: Channel)
    ensures var was, now := Shown(network, id, c), Shown(Take(Core, network, e), id, c);
            && (id in Take(Core, network, e) <==> id in network || e.entityId == id)
            && now == if Concerns(e, id, c) && (id !in network || (if was.None? then 0 else was.value.at) <= e.sourceTimestamp)
                      then Seen(Some(e)) else was
  {}

  predicate Permutes(xs: seq<Event>, ys: seq<Event>) { multiset(xs) == multiset(ys) }

  /** Every arrival order of `events` shows the same on the channel. */
  ghost predicate OrdersAgree(events: seq<Event>, id: Id, c: Channel) {
    forall xs, ys :: Permutes(xs, events) && Permutes(ys, events) ==> Shown(Arrived(Core, xs), id, c) == Shown(Arrived(Core, ys), id, c)
  }

  /** The core's projection of a channel converges exactly when no event concerns it, or its newest time is not
      negative, or no event of the entity concerns another channel. */
  lemma CoreConvergesExactly(events: seq<Event>, id: Id, c: Channel)
    requires DistinctTimes(events)
    ensures OrdersAgree(events, id, c) <==>
            || Newest(events, id, c).None?
            || 0 <= Newest(events, id, c).value.sourceTimestamp
            || (forall e <- events :: e.entityId == id ==> Concerns(e, id, c))
  {
    if Newest(events, id, c).Some? && Newest(events, id, c).value.sourceTimestamp < 0
       && exists e <- events :: e.entityId == id && !Concerns(e, id, c) {
      var e :| e in events && e.entityId == id && !Concerns(e, id, c);
      OrdersDiffer(events, Newest(events, id, c).value, e, id, c);
    } else {
      forall xs, ys | Permutes(xs, events) && Permutes(ys, events)
        ensures Shown(Arrived(Core, xs), id, c) == Shown(Arrived(Core, ys), id, c)
      {
        SeenInAnyOrder(events, xs, id, c);
        SeenInAnyOrder(events, ys, id, c);
      }
    }
  }

  /** The newest event does not depend on the order. */
  lemma NewestPermuted(events: seq<Event>, xs: seq<Event>, id: Id, c: Channel)
    requires DistinctTimes(events) && Permutes(xs, events)
    ensures Newest(xs, id, c) == Newest(events, id, c)
    ensures forall e :: e in xs <==> e in events
  {
    forall e
      ensures e in xs <==> e in events
    {
      assert e in multiset(xs) <==> e in multiset(events);
    }
    NewestIsNewest(xs, id, c);
    NewestIsNewest(events, id, c);
  }

  lemma SeenInAnyOrder(events: seq<Event>, xs: seq<Event>, id: Id, c: Channel)
    requires DistinctTimes(events) && Permutes(xs, events)
    requires || Newest(events, id, c).None?
             || 0 <= Newest(events, id, c).value.sourceTimestamp
             || (forall e <- events :: e.entityId == id ==> Concerns(e, id, c))
    ensures Shown(Arrived(Core, xs), id, c) == Seen(Newest(events, id, c))
  {
    NewestPermuted(events, xs, id, c);
    CoreShows(xs, id, c);
  }

  /** The order that begins with the event at `k`. */
  function Leading(events: seq<Event>, k: nat): seq<Event>
    requires k < |events|
  {
    [events[k]] + events[..k] + events[k + 1..]
  }

  lemma LeadingPermutes(events: seq<Event>, k: nat)
    requires k < |events|
    ensures Permutes(Leading(events, k), events)
  {
    assert events == events[..k] + [events[k]] + events[k + 1..];
  }

  lemma {:induction false} FirstLeads(events: seq<Event>, id: Id)
    requires events != [] && events[0].entityId == id
    ensures FirstOf(events, id) == Some(events[0])
  {
    if |events| == 1 { assert events[..0] == []; } else { FirstLeads(events[..|events| - 1], id); }
  }

  /** Let the negative newest event arrive first, or let another channel make the entity known. */
  lemma OrdersDiffer(events: seq<Event>, newest: Event, other: Event, id: Id, c: Channel)
    requires DistinctTimes(events) && Newest(events, id, c) == Some(newest) && newest.sourceTimestamp < 0
    requires other in events && other.entityId == id && !Concerns(other, id, c)
    ensures !OrdersAgree(events, id, c)
  {
    NewestIsNewest(events, id, c);
    var i :| 0 <= i < |events| && events[i] == newest;
    var j :| 0 <= j < |events| && events[j] == other;
    var xs, ys := Leading(events, i), Leading(events, j);
    LeadingPermutes(events, i);
    LeadingPermutes(events, j);
    FirstLeads(xs, id);
    FirstLeads(ys, id);
    NewestPermuted(events, xs, id, c);
    NewestPermuted(events, ys, id, c);
    CoreShows(xs, id, c);
    CoreShows(ys, id, c);
    assert Shown(Arrived(Core, xs), id, c).Some? && Shown(Arrived(Core, ys), id, c).None?;
  }
}
