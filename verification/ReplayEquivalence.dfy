/** When does replaying the log rebuild the live projection? */
module ReplayEquivalence {
  import opened DurableCore
  import opened PlatformEvents
  import opened PlatformReplay
  import IR = IncidentRepository

  // ---------------------------------------------------------------- runs of the live core

  /** Besides appended events, incidents move and are updated by the rest of the platform. */
  datatype Op =
    | AppendOp(event: Event)
    | MoveOp(id: Id, to: IncidentState, at: int)
    | UpdateOp(incident: IR.Incident, expected: nat)

  ghost function Apply(s: CoreState, op: Op): CoreState {
    match op
    case AppendOp(e) => Append(s, e).0
    case MoveOp(id, to, at) =>
      (match s.incidents.Transition(id, to, at) case Done(store) => s.(incidents := store) case Refused(_) => s)
    case UpdateOp(i, expected) =>
      (match s.incidents.Update(i, expected) case Done(store) => s.(incidents := store) case Refused(_) => s)
  }

  /** The hash never names an incident twice, and updates keep the correlation key. */
  ghost predicate Admissible(s: CoreState, op: Op) {
    match op
    case AppendOp(e) => Refuses(s, e) || IncidentIdOf(e) !in s.incidents.items
    case MoveOp(_, _, _) => true
    case UpdateOp(i, _) => i.incidentId in s.incidents.items ==> i.correlationKey == s.incidents.items[i.incidentId].correlationKey
  }

  ghost predicate Run(states: seq<CoreState>, ops: seq<Op>) {
    && |states| == |ops| + 1 && states[0] == Empty()
    && forall i, j :: 0 <= i < j < |states| && j == i + 1 ==> Admissible(states[i], ops[i]) && states[j] == Apply(states[i], ops[i])
  }

  /** The incident store holds, or held, an incident of this correlation. */
  predicate KnowsOf(s: IR.IncidentStore, correlation: Id) {
    exists id <- s.items :: s.items[id].correlationKey == correlation
  }

  /** The event opens an incident for a correlation all of whose incidents have been closed. */
  ghost predicate Reopens(s: CoreState, e: Event) {
    && !Refuses(s, e) && IsHighCongestion(e) && !StaleForCore(Find(s.cache, e.entityId), e)
    && s.incidents.FindActive(e.correlationKey).None? && KnowsOf(s.incidents, e.correlationKey)
  }

  // ---------------------------------------------------------------- live and replayed

  ghost predicate SameTimes(a: Entity, b: Entity) {
    a.congestionAt == b.congestionAt && a.reachabilityAt == b.reachabilityAt && a.locationAt == b.locationAt
  }

  /** The networks agree, or the live one has run ahead. */
  ghost predicate Networks(live: map<Id, Entity>, replay: map<Id, Entity>, exact: bool) {
    && live.Keys == replay.Keys
    && (forall id <- live :: SameTimes(live[id], replay[id]) && replay[id].version <= live[id].version)
    && (exact ==> live == replay)
    && (!exact ==> exists id :: id in live && replay[id].version < live[id].version)
  }

  /** Both know of the same correlations, and in the replay nothing was ever closed. */
  ghost predicate Incidents(live: IR.IncidentStore, replay: IR.IncidentStore) {
    && (forall id <- replay.items :: id in live.items && !IR.Closed(replay.items[id].state))
    && (forall k :: KnowsOf(live, k) <==> KnowsOf(replay, k))
  }

  ghost predicate Tracks(live: CoreState, replay: CoreState, exact: bool) {
    && live.events == replay.events && live.keys == replay.keys && replay.claimed.Keys == replay.keys && live.keys <= live.claimed.Keys
    && live.cache == live.network && replay.cache == replay.network
    && Networks(live.network, replay.network, exact) && Incidents(live.incidents, replay.incidents)
  }

  lemma NothingActiveUnknown(s: IR.IncidentStore, k: Id)
    requires forall id <- s.items :: !IR.Closed(s.items[id].state)
    ensures s.FindActive(k).None? <==> !KnowsOf(s, k)
  {
    if KnowsOf(s, k) {
      var id :| id in s.items && s.items[id].correlationKey == k;
      assert s.IsActive(id, k);
    }
  }

  lemma CreateKnows(s: IR.IncidentStore, i: IR.Incident, k: Id)
    requires i.incidentId !in s.items && s.FindActive(i.correlationKey).None?
    ensures KnowsOf(s.CreateOrGetActive(i).0, k) <==> KnowsOf(s, k) || k == i.correlationKey
  {
    var t := s.CreateOrGetActive(i).0;
    assert t.items[i.incidentId] == i;
    if KnowsOf(s, k) {
      var id :| id in s.items && s.items[id].correlationKey == k;
      assert t.items[id] == s.items[id];
    }
  }

  /** Opening the incident of an event on both sides; the live side may be the only one to open it. */
  lemma OpenTracks(live: CoreState, replay: CoreState, exact: bool, e: Event)
    requires Tracks(live, replay, exact) && e.entityId in live.cache && IncidentIdOf(e) !in live.incidents.items
    ensures var reopened := live.incidents.FindActive(e.correlationKey).None? && KnowsOf(live.incidents, e.correlationKey);
            var l, r := OpenIncident(live, e), OpenIncident(replay, e);
            l.1.Accepted? && r.1.Accepted? && Tracks(l.0, r.0, exact && !reopened)
  {
    NothingActiveUnknown(replay.incidents, e.correlationKey);
    var i := IncidentFor(e);
    if live.incidents.FindActive(e.correlationKey).None? {
      forall k
        ensures KnowsOf(live.incidents.CreateOrGetActive(i).0, k) <==> KnowsOf(live.incidents, k) || k == e.correlationKey
      {
        CreateKnows(live.incidents, i, k);
      }
      if !KnowsOf(live.incidents, e.correlationKey) {
        forall k
          ensures KnowsOf(replay.incidents.CreateOrGetActive(i).0, k) <==> KnowsOf(replay.incidents, k) || k == e.correlationKey
        {
          CreateKnows(replay.incidents, i, k);
        }
        OpenBothNetworks(live, replay, exact, e);
      } else {
        OpenLiveNetwork(live, replay, exact, e);
      }
    } else {
      KnownActive(live.incidents, e.correlationKey);
    }
  }

  lemma KnownActive(s: IR.IncidentStore, k: Id)
    requires s.FindActive(k).Some?
    ensures KnowsOf(s, k)
  {}

  lemma OpenBothNetworks(live: CoreState, replay: CoreState, exact: bool, e: Event)
    requires Networks(live.network, replay.network, exact) && e.entityId in live.cache && live.cache == live.network
             && replay.cache == replay.network
    requires live.incidents.FindActive(e.correlationKey).None? && replay.incidents.FindActive(e.correlationKey).None?
    ensures var l, r := OpenIncident(live, e).0, OpenIncident(replay, e).0;
            Networks(l.network, r.network, exact) && l.cache == l.network && r.cache == r.network
  {
    var l, r := OpenIncident(live, e).0, OpenIncident(replay, e).0;
    if !exact {
      var id :| id in live.network && replay.network[id].version < live.network[id].version;
      assert id in l.network && r.network[id].version < l.network[id].version;
    }
  }

  lemma OpenLiveNetwork(live: CoreState, replay: CoreState, exact: bool, e: Event)
    requires Networks(live.network, replay.network, exact) && e.entityId in live.cache && live.cache == live.network
             && replay.cache == replay.network
    requires live.incidents.FindActive(e.correlationKey).None? && replay.incidents.FindActive(e.correlationKey).Some?
    ensures var l, r := OpenIncident(live, e).0, OpenIncident(replay, e).0;
            Networks(l.network, r.network, false) && l.cache == l.network && r.cache == r.network
  {
    var l, r := OpenIncident(live, e).0, OpenIncident(replay, e).0;
    assert e.entityId in l.network && r.network[e.entityId].version < l.network[e.entityId].version;
  }

  /** Both sides save the same observation. */
  lemma SaveTracks(live: CoreState, replay: CoreState, exact: bool, e: Event)
    requires Tracks(live, replay, exact) && !StaleForCore(Find(live.cache, e.entityId), e)
    ensures !StaleForCore(Find(replay.cache, e.entityId), e)
    ensures var a := Save(live.network, e.entityId, ProjectedByCore(Find(live.cache, e.entityId), e).value,
                          VersionOf(Find(live.cache, e.entityId)));
            var b := Save(replay.network, e.entityId, ProjectedByCore(Find(replay.cache, e.entityId), e).value,
                          VersionOf(Find(replay.cache, e.entityId)));
            a.Some? && b.Some? && Networks(a.value, b.value, exact)
  {
    var a := Save(live.network, e.entityId, ProjectedByCore(Find(live.cache, e.entityId), e).value,
                  VersionOf(Find(live.cache, e.entityId))).value;
    var b := Save(replay.network, e.entityId, ProjectedByCore(Find(replay.cache, e.entityId), e).value,
                  VersionOf(Find(replay.cache, e.entityId))).value;
    if !exact {
      var id :| id in live.network && replay.network[id].version < live.network[id].version;
      assert id in a && b[id].version < a[id].version;
    }
  }

  lemma ProjectTracks(live: CoreState, replay: CoreState, exact: bool, e: Event)
    requires Tracks(live, replay, exact) && IncidentIdOf(e) !in live.incidents.items
    ensures var reopened := IsHighCongestion(e) && !StaleForCore(Find(live.cache, e.entityId), e)
                            && live.incidents.FindActive(e.correlationKey).None? && KnowsOf(live.incidents, e.correlationKey);
            var l, r := Project(live, e), Project(replay, e);
            l.1.Accepted? && r.1.Accepted? && Tracks(l.0, r.0, exact && !reopened)
  {
    if !StaleForCore(Find(live.cache, e.entityId), e) {
      SaveTracks(live, replay, exact, e);
      var a := Save(live.network, e.entityId, ProjectedByCore(Find(live.cache, e.entityId), e).value,
                    VersionOf(Find(live.cache, e.entityId))).value;
      var b := Save(replay.network, e.entityId, ProjectedByCore(Find(replay.cache, e.entityId), e).value,
                    VersionOf(Find(replay.cache, e.entityId))).value;
      var live1 := live.(network := a, cache := live.cache[e.entityId := a[e.entityId]]);
      var replay1 := replay.(network := b, cache := replay.cache[e.entityId := b[e.entityId]]);
      assert Tracks(live1, replay1, exact);
      if IsHighCongestion(e) { OpenTracks(live1, replay1, exact, e); }
    }
  }

  /** An appended event keeps the replay on the track of the live core, until it reopens a correlation. */
  lemma AppendTracks(live: CoreState, replay: CoreState, exact: bool, e: Event)
    requires Tracks(live, replay, exact) && Admissible(live, AppendOp(e))
    ensures var l := Append(live, e);
            && (l.1.Duplicate? <==> Refuses(live, e)) && !l.1.Conflicted?
            && (if l.1.Duplicate? then l.0.events == live.events && Tracks(l.0, replay, exact)
                else l.0.events == live.events + [e] && Tracks(l.0, Append(replay, e).0, exact && !Reopens(live, e)))
  {
    if !Refuses(live, e) {
      var live1 := live.(claimed := live.claimed[e.idempotencyKey := e.eventId], events := live.events + [e], keys := live.keys + {e.idempotencyKey});
      var replay1 := replay.(claimed := replay.claimed[e.idempotencyKey := e.eventId], events := replay.events + [e],
                              keys := replay.keys + {e.idempotencyKey});
      assert Tracks(live1, replay1, exact);
      ProjectTracks(live1, replay1, exact, e);
    }
  }

  lemma MoveTracks(live: CoreState, replay: CoreState, exact: bool, op: Op)
    requires Tracks(live, replay, exact) && Admissible(live, op) && !op.AppendOp?
    ensures Tracks(Apply(live, op), replay, exact)
  {
    var l := Apply(live, op);
    forall k
      ensures KnowsOf(l.incidents, k) <==> KnowsOf(live.incidents, k)
    {
      SameCorrelations(live.incidents, l.incidents, k);
    }
  }

  lemma SameCorrelations(s: IR.IncidentStore, t: IR.IncidentStore, k: Id)
    requires s.items.Keys == t.items.Keys && forall id <- s.items :: t.items[id].correlationKey == s.items[id].correlationKey
    ensures KnowsOf(s, k) <==> KnowsOf(t, k)
  {
    if KnowsOf(s, k) {
      var id :| id in s.items && s.items[id].correlationKey == k;
      assert t.items[id].correlationKey == k;
    }
  }

  // ---------------------------------------------------------------- the theorem

  /** Some step before `n` reopened a correlation. */
  ghost predicate Reopened(states: seq<CoreState>, ops: seq<Op>, n: nat)
    requires |states| == |ops| + 1 && n <= |ops|
  {
    exists k :: 0 <= k < n && Reopening(states[k], ops[k])
  }

  /** The operation reopens a correlation. */
  ghost predicate Reopening(s: CoreState, op: Op) { op.AppendOp? && Reopens(s, op.event) }

  lemma StepTracks(s: CoreState, op: Op, exact: bool)
    requires Tracks(s, Replayed(s.events), exact) && Admissible(s, op)
    ensures Tracks(Apply(s, op), Replayed(Apply(s, op).events), exact && !Reopening(s, op))
  {
    if op.AppendOp? {
      AppendTracks(s, Replayed(s.events), exact, op.event);
      assert (s.events + [op.event])[..|s.events|] == s.events;
    } else {
      MoveTracks(s, Replayed(s.events), exact, op);
    }
  }

  /** What the induction over a run needs of it. */
  ghost predicate Follows(s: CoreState, t: CoreState, op: Op) {
    forall exact :: Tracks(s, Replayed(s.events), exact) ==> Tracks(t, Replayed(t.events), exact && !Reopening(s, op))
  }

  lemma RunFollows(states: seq<CoreState>, ops: seq<Op>)
    requires Run(states, ops)
    ensures forall i, j :: 0 <= i < j < |states| && j == i + 1 ==> Follows(states[i], states[j], ops[i])
  {
    forall i, j | 0 <= i < j < |states| && j == i + 1
      ensures Follows(states[i], states[j], ops[i])
    {
      assert Admissible(states[i], ops[i]) && states[j] == Apply(states[i], ops[i]);
      forall exact | Tracks(states[i], Replayed(states[i].events), exact)
        ensures Tracks(states[j], Replayed(states[j].events), exact && !Reopening(states[i], ops[i]))
      {
        StepTracks(states[i], ops[i], exact);
      }
    }
  }

  lemma {:induction false} TracksFollow(states: seq<CoreState>, ops: seq<Op>, n: nat)
    requires |states| == |ops| + 1 && states[0] == Empty() && n <= |ops|
    requires forall i, j :: 0 <= i < j < |states| && j == i + 1 ==> Follows(states[i], states[j], ops[i])
    ensures Tracks(states[n], Replayed(states[n].events), !Reopened(states, ops, n))
  {
    if n > 0 {
      TracksFollow(states, ops, n - 1);
      assert Follows(states[n - 1], states[n], ops[n - 1]);
      assert Reopened(states, ops, n) <==> Reopened(states, ops, n - 1) || Reopening(states[n - 1], ops[n - 1]);
    }
  }

  lemma RunTracks(states: seq<CoreState>, ops: seq<Op>, n: nat)
    requires Run(states, ops) && n <= |ops|
    ensures Tracks(states[n], Replayed(states[n].events), !Reopened(states, ops, n))
  {
    RunFollows(states, ops);
    TracksFollow(states, ops, n);
  }

  /** Replay rebuilds the live projection, versions and incident identities included, exactly when no
      event of the run reopened a correlation all of whose incidents had been closed. */
  lemma ReplayRebuilds(states: seq<CoreState>, ops: seq<Op>, n: nat)
    requires Run(states, ops) && n <= |ops|
    ensures states[n].cache == states[n].network
    ensures Replayed(states[n].events).cache == states[n].network <==> !Reopened(states, ops, n)
  {
    RunTracks(states, ops, n);
  }

  /** In particular it does when no incident of the run was ever closed. */
  lemma ReplayRebuildsWhileOpen(states: seq<CoreState>, ops: seq<Op>, n: nat)
    requires Run(states, ops) && n <= |ops|
    requires forall k :: 0 <= k < n ==> forall id <- states[k].incidents.items :: !IR.Closed(states[k].incidents.items[id].state)
    ensures Replayed(states[n].events).cache == states[n].network
  {
    ReplayRebuilds(states, ops, n);
    forall k | 0 <= k < n
      ensures !Reopening(states[k], ops[k])
    {
      if ops[k].AppendOp? { NothingActiveUnknown(states[k].incidents, ops[k].event.correlationKey); }
    }
  }

  /** No append of a run is lost to a version conflict, and a redelivered key changes nothing. */
  lemma AppendsSettle(states: seq<CoreState>, ops: seq<Op>, k: nat)
    requires Run(states, ops) && k < |ops| && ops[k].AppendOp?
    ensures !Append(states[k], ops[k].event).1.Conflicted?
    ensures ops[k].event.idempotencyKey in states[k].claimed ==> states[k + 1] == states[k]
    ensures Append(states[k], ops[k].event).1.Accepted? ==> states[k + 1].events == states[k].events + [ops[k].event]
  {
    RunTracks(states, ops, k);
    assert states[k + 1] == Apply(states[k], ops[k]) && Admissible(states[k], ops[k]);
    AppendTracks(states[k], Replayed(states[k].events), !Reopened(states, ops, k), ops[k].event);
  }
}
