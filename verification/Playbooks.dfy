/** The playbooks and their arbitration (playbooks.py).  Times are reals. */
module Playbooks {
  import opened Options
  import opened DurableCore
  import Sorting = StableSort

  // ---------------------------------------------------------------- values

  datatype Level = NoCongestion | Low | Medium | High

  datatype Reading = Reading(cellId: Id, level: Level, confidence: int)

  datatype Device = Device(deviceId: Id, tier: int, cellId: Id, battery: Option<real>)

  /** `time` is `None` when the stored value is not a number. */
  datatype Sample = Sample(level: Level, time: Option<real>)

  /** In the alphabetical order of their names. */
  datatype Kind = Geofence | Qos | SliceAttach | SliceDetach

  datatype Profile = NoProfile | Guaranteed | LowBandwidth | EmergencyOnly

  datatype Parameters = Parameters(profile: Profile, duration: int, sliceId: Id, polygonId: Id, deferUploads: bool, runtimeHours: real)

  datatype Action = Action(kind: Kind, deviceId: Id, parameters: Parameters)

  datatype Config = Config(
    rollbackSeconds: int, geofencing: bool, minBulkDevices: int, batteryThreshold: real,
    sustainedSeconds: real, maxGap: real, emergencySlice: Id, stormPolygon: Id)

  function QosAction(d: Id, profile: Profile, duration: int, defer: bool, hours: real): Action {
    Action(Qos, d, Parameters(profile, duration, [], [], defer, hours))
  }

  predicate HotCell(readings: seq<Reading>, cell: Id) { exists r <- readings :: r.cellId == cell && r.level.High? }

  // ---------------------------------------------------------------- energy guard

  function HighTimes(samples: seq<Sample>): (r: seq<real>)
    requires forall s <- samples :: s.level.High? ==> s.time.Some?
    ensures |r| <= |samples|
  {
    if samples == [] then []
    else
      var last := samples[|samples| - 1];
      HighTimes(samples[..|samples| - 1]) + (if last.level.High? then [last.time.value] else [])
  }

  predicate Earlier(a: real, b: real) { a < b }

  /** `sustained`: a timestamped, unbroken window of High samples. */
  predicate Sustained(samples: seq<Sample>, now: real, c: Config) {
    && samples != [] && (forall s <- samples :: s.level.High? ==> s.time.Some?)
    && var times := Sorting.Sort(HighTimes(samples), Earlier);
    && times != [] && |times| == |samples|
    && times[|times| - 1] <= now && now - c.maxGap <= times[|times| - 1]
    && times[0] <= now - c.sustainedSeconds
    && forall i :: 0 <= i < |times| - 1 ==> times[i + 1] - times[i] <= c.maxGap
  }

  predicate Exhausted(d: Device, readings: seq<Reading>, history: map<Id, seq<Sample>>, now: real, c: Config) {
    && d.tier == 3 && HotCell(readings, d.cellId) && d.battery.Some? && d.battery.value < c.batteryThreshold
    && d.cellId in history && Sustained(history[d.cellId], now, c)
  }

  /** The projected runtime, which the source rounds to two places. */
  function RuntimeHours(d: Device): real
    requires d.battery.Some?
  {
    if d.battery.value / 12.0 < 0.25 then 0.25 else d.battery.value / 12.0
  }

  function EnergyGuard(readings: seq<Reading>, devices: seq<Device>, history: map<Id, seq<Sample>>, now: real,
                       c: Config): seq<Action> {
    if devices == [] then []
    else
      var d := devices[|devices| - 1];
      EnergyGuard(readings, devices[..|devices| - 1], history, now, c)
        + (if Exhausted(d, readings, history, now, c) then [QosAction(d.deviceId, EmergencyOnly, 300, false, RuntimeHours(d))] else [])
  }

  // ---------------------------------------------------------------- storm shield, capacity harvest

  predicate Threatened(readings: seq<Reading>, d: Device) {
    d.tier == 1 && exists r <- readings :: r.cellId == d.cellId && (r.level.Medium? || r.level.High?)
  }

  function Shield(d: Device, c: Config): seq<Action> {
    [QosAction(d.deviceId, Guaranteed, c.rollbackSeconds, false, 0.0),
     Action(SliceAttach, d.deviceId, Parameters(NoProfile, 0, c.emergencySlice, [], false, 0.0))]
    + (if c.geofencing then [Action(Geofence, d.deviceId, Parameters(NoProfile, 0, [], c.stormPolygon, false, 0.0))] else [])
  }

  function Shields(readings: seq<Reading>, devices: seq<Device>, c: Config): seq<Action> {
    if devices == [] then []
    else Shields(readings, devices[..|devices| - 1], c)
           + (if Threatened(readings, devices[|devices| - 1]) then Shield(devices[|devices| - 1], c) else [])
  }

  function StormShield(dust: bool, readings: seq<Reading>, devices: seq<Device>, c: Config): seq<Action> {
    if dust then Shields(readings, devices, c) else []
  }

  /** `storm_shield` appends in a loop. */
  method StormShieldActions(dust: bool, readings: seq<Reading>, devices: seq<Device>, c: Config)
    returns (actions: seq<Action>)
    ensures actions == StormShield(dust, readings, devices, c)
  {
    actions := [];
    if !dust { return; }
    for i := 0 to |devices|
      invariant actions == Shields(readings, devices[..i], c)
    {
      assert devices[..i + 1][..i] == devices[..i];
      var d := devices[i];
      if d.tier == 1 && exists r <- readings :: r.cellId == d.cellId && (r.level.Medium? || r.level.High?) {
        var shield := [QosAction(d.deviceId, Guaranteed, c.rollbackSeconds, false, 0.0),
                       Action(SliceAttach, d.deviceId, Parameters(NoProfile, 0, c.emergencySlice, [], false, 0.0))];
        if c.geofencing {
          shield := shield + [Action(Geofence, d.deviceId, Parameters(NoProfile, 0, [], c.stormPolygon, false, 0.0))];
        }
        actions := actions + shield;
      }
    }
    assert devices[..|devices|] == devices;
  }

  function BulkDevices(devices: seq<Device>, cell: Id): nat {
    if devices == [] then 0
    else BulkDevices(devices[..|devices| - 1], cell) + (if devices[|devices| - 1].tier == 3 && devices[|devices| - 1].cellId == cell then 1 else 0)
  }

  predicate Harvestable(d: Device, readings: seq<Reading>, fleet: seq<Device>, c: Config) {
    d.tier == 3 && HotCell(readings, d.cellId) && c.minBulkDevices <= BulkDevices(fleet, d.cellId)
  }

  function Harvest(readings: seq<Reading>, devices: seq<Device>, fleet: seq<Device>, c: Config): seq<Action> {
    if devices == [] then []
    else Harvest(readings, devices[..|devices| - 1], fleet, c)
           + (if Harvestable(devices[|devices| - 1], readings, fleet, c)
              then [QosAction(devices[|devices| - 1].deviceId, LowBandwidth, 300, true, 0.0)] else [])
  }

  function CapacityHarvest(readings: seq<Reading>, devices: seq<Device>, c: Config): seq<Action> {
    Harvest(readings, devices, devices, c)
  }

  // ---------------------------------------------------------------- arbitration

  /** In the order in which `evaluate` collects them, which is that of their precedence. */
  datatype Playbook = EnergyGuardBook | StormShieldBook | CapacityHarvestBook

  function Precedence(p: Playbook): nat {
    match p case EnergyGuardBook => 300 case StormShieldBook => 200 case CapacityHarvestBook => 100
  }

  datatype Pick = Pick(book: Playbook, action: Action)

  datatype Resource = QosResource | SliceResource | GeofenceResource

  datatype ResourceKey = ResourceKey(deviceId: Id, resource: Resource)

  function KeyOf(a: Action): ResourceKey {
    ResourceKey(a.deviceId, match a.kind case Qos => QosResource case Geofence => GeofenceResource case _ => SliceResource)
  }

  function Tagged(book: Playbook, actions: seq<Action>): (r: seq<Pick>)
    ensures |r| == |actions| && forall i :: 0 <= i < |r| ==> r[i] == Pick(book, actions[i])
  {
    if actions == [] then [] else Tagged(book, actions[..|actions| - 1]) + [Pick(book, actions[|actions| - 1])]
  }

  /** What the platform has observed. */
  datatype Observation = Observation(dust: bool, readings: seq<Reading>, history: map<Id, seq<Sample>>, now: real)

  /** All proposals, in the order in which `evaluate` looks at them. */
  function Candidates(o: Observation, devices: seq<Device>, c: Config): seq<Pick> {
    Tagged(EnergyGuardBook, EnergyGuard(o.readings, devices, o.history, o.now, c))
      + Tagged(StormShieldBook, StormShield(o.dust, o.readings, devices, c))
      + Tagged(CapacityHarvestBook, CapacityHarvest(o.readings, devices, c))
  }

  // ---------------------------------------------------------------- the order of the result

  /** Python's `<=` on strings. */
  predicate AtMost(a: Id, b: Id) {
    a == [] || (b != [] && (a[0] < b[0] || (a[0] == b[0] && AtMost(a[1..], b[1..]))))
  }

  function KindRank(k: Kind): nat {
    match k case Geofence => 0 case Qos => 1 case SliceAttach => 2 case SliceDetach => 3
  }

  /** `(-priority, name, device_id, kind)`, where the priority already determines the name. */
  predicate NotAfter(p: Pick, q: Pick) {
    || Precedence(q.book) < Precedence(p.book)
    || (p.book == q.book && p.action.deviceId != q.action.deviceId && AtMost(p.action.deviceId, q.action.deviceId))
    || (p.book == q.book && p.action.deviceId == q.action.deviceId && KindRank(p.action.kind) <= KindRank(q.action.kind))
  }

  predicate Before(p: Pick, q: Pick) { !NotAfter(q, p) }

  // ---------------------------------------------------------------- evaluate

  /** `p` is a candidate for its resource that no other candidate outranks. */
  ghost predicate Best(p: Pick, candidates: seq<Pick>) {
    p in candidates && forall q <- candidates :: KeyOf(q.action) == KeyOf(p.action) ==> Precedence(q.book) <= Precedence(p.book)
  }

  /** One best candidate for each resource that any playbook wants, in the order of the result. */
  ghost predicate IsEvaluation(r: seq<Pick>, candidates: seq<Pick>) {
    && (forall p <- r :: Best(p, candidates))
    && (forall p <- candidates :: exists q :: q in r && KeyOf(q.action) == KeyOf(p.action))
    && (forall i, j :: 0 <= i < j < |r| ==> KeyOf(r[i].action) != KeyOf(r[j].action))
    && Sorting.Sorted(r, Before)
  }

  /** The dictionary after the candidates `seen`; `order` is its insertion order. */
  ghost predicate Holds(selected: map<ResourceKey, Pick>, order: seq<ResourceKey>, seen: seq<Pick>) {
    && (forall k <- selected :: KeyOf(selected[k].action) == k && Best(selected[k], seen))
    && (forall p <- seen :: KeyOf(p.action) in selected)
    && (forall k :: k in order <==> k in selected)
    && (forall i, j :: 0 <= i < j < |order| ==> order[i] != order[j])
  }

  lemma SeeOne(selected: map<ResourceKey, Pick>, order: seq<ResourceKey>, seen: seq<Pick>, p: Pick)
    requires Holds(selected, order, seen)
    ensures var k := KeyOf(p.action);
            if k in selected && Precedence(p.book) <= Precedence(selected[k].book) then Holds(selected, order, seen + [p])
            else Holds(selected[k := p], if k in selected then order else order + [k], seen + [p])
  {
    forall q | q in seen + [p]
      ensures q in seen || q == p
    {}
  }

  lemma TaggedGrows(seen: seq<Pick>, book: Playbook, actions: seq<Action>, i: nat)
    requires i < |actions|
    ensures seen + Tagged(book, actions[..i + 1]) == seen + Tagged(book, actions[..i]) + [Pick(book, actions[i])]
  {
    assert actions[..i + 1][..i] == actions[..i];
  }

  /** Goes through the proposals of one playbook. */
  method SelectFrom(book: Playbook, actions: seq<Action>, before: map<ResourceKey, Pick>, orderBefore: seq<ResourceKey>,
                    ghost seen: seq<Pick>)
    returns (selected: map<ResourceKey, Pick>, order: seq<ResourceKey>)
    requires Holds(before, orderBefore, seen)
    ensures Holds(selected, order, seen + Tagged(book, actions))
  {
    selected, order := before, orderBefore;
    ghost var sofar := seen;
    assert seen + Tagged(book, actions[..0]) == seen;
    for i := 0 to |actions|
      invariant sofar == seen + Tagged(book, actions[..i]) && Holds(selected, order, sofar)
    {
      var candidate := Pick(book, actions[i]);
      selected, order := Select(candidate, selected, order, sofar);
      TaggedGrows(seen, book, actions, i);
      sofar := sofar + [candidate];
    }
    assert actions[..|actions|] == actions;
  }

  /** Keeps the candidate when its resource is free, or held by a playbook of lower precedence. */
  method Select(candidate: Pick, before: map<ResourceKey, Pick>, orderBefore: seq<ResourceKey>, ghost seen: seq<Pick>)
    returns (selected: map<ResourceKey, Pick>, order: seq<ResourceKey>)
    requires Holds(before, orderBefore, seen)
    ensures Holds(selected, order, seen + [candidate])
  {
    selected, order := before, orderBefore;
    var key := KeyOf(candidate.action);
    SeeOne(selected, order, seen, candidate);
    if key !in selected {
      selected, order := selected[key := candidate], order + [key];
    } else if Precedence(selected[key].book) < Precedence(candidate.book) {
      selected := selected[key := candidate];
    }
  }

  function ValuesOf(selected: map<ResourceKey, Pick>, order: seq<ResourceKey>): (r: seq<Pick>)
    requires forall k <- order :: k in selected
    ensures |r| == |order| && forall i :: 0 <= i < |r| ==> r[i] == selected[order[i]]
  {
    if order == [] then [] else ValuesOf(selected, order[..|order| - 1]) + [selected[order[|order| - 1]]]
  }

  /** `evaluate`. */
  method Evaluate(o: Observation, devices: seq<Device>, c: Config) returns (picks: seq<Pick>)
    ensures IsEvaluation(picks, Candidates(o, devices, c))
  {
    var storm := StormShieldActions(o.dust, o.readings, devices, c);
    var proposals := [(EnergyGuardBook, EnergyGuard(o.readings, devices, o.history, o.now, c)),
                      (StormShieldBook, storm),
                      (CapacityHarvestBook, CapacityHarvest(o.readings, devices, c))];
    var selected: map<ResourceKey, Pick>, order: seq<ResourceKey> := map[], [];
    ghost var seen: seq<Pick> := [];
    for n := 0 to 3
      invariant Holds(selected, order, seen)
      invariant seen == (if n == 0 then [] else if n == 1 then Tagged(proposals[0].0, proposals[0].1)
                         else if n == 2 then Tagged(proposals[0].0, proposals[0].1) + Tagged(proposals[1].0, proposals[1].1)
                         else Candidates(o, devices, c))
    {
      selected, order := SelectFrom(proposals[n].0, proposals[n].1, selected, order, seen);
      seen := seen + Tagged(proposals[n].0, proposals[n].1);
    }
    picks := Sorting.Sort(ValuesOf(selected, order), Before);
    SortedSelection(selected, order, seen);
  }

  lemma SortedSelection(selected: map<ResourceKey, Pick>, order: seq<ResourceKey>, seen: seq<Pick>)
    requires Holds(selected, order, seen)
    ensures IsEvaluation(Sorting.Sort(ValuesOf(selected, order), Before), seen)
  {
    ValuesSorted(ValuesOf(selected, order));
    PermutedSelection(selected, order, seen, Sorting.Sort(ValuesOf(selected, order), Before));
  }

  lemma PermutedSelection(selected: map<ResourceKey, Pick>, order: seq<ResourceKey>, seen: seq<Pick>, r: seq<Pick>)
    requires Holds(selected, order, seen) && multiset(r) == multiset(ValuesOf(selected, order)) && Sorting.Sorted(r, Before)
    ensures IsEvaluation(r, seen)
  {
    SelectionBest(selected, order, seen, r);
    SelectionCovers(selected, order, seen, r);
    assert forall i, j :: 0 <= i < j < |r| ==> KeyOf(r[i].action) != KeyOf(r[j].action) by {
      ValuesDistinct(selected, order, seen);
      DistinctKeys(ValuesOf(selected, order), r);
    }
  }

  lemma ValuesSorted(values: seq<Pick>)
    ensures Sorting.Sorted(Sorting.Sort(values, Before), Before)
    ensures multiset(Sorting.Sort(values, Before)) == multiset(values)
  {
    BeforeIsWeakOrder();
    Sorting.SortSorts(values, Before);
    Sorting.SortPermutes(values, Before);
  }

  lemma ValuesDistinct(selected: map<ResourceKey, Pick>, order: seq<ResourceKey>, seen: seq<Pick>)
    requires Holds(selected, order, seen)
    ensures var values := ValuesOf(selected, order);
            forall i, j :: 0 <= i < j < |values| ==> KeyOf(values[i].action) != KeyOf(values[j].action)
  {
    var values := ValuesOf(selected, order);
    forall i, j | 0 <= i < j < |values|
      ensures KeyOf(values[i].action) != KeyOf(values[j].action)
    {
      assert KeyOf(selected[order[i]].action) == order[i] && KeyOf(selected[order[j]].action) == order[j];
    }
  }

  lemma SelectionBest(selected: map<ResourceKey, Pick>, order: seq<ResourceKey>, seen: seq<Pick>, r: seq<Pick>)
    requires Holds(selected, order, seen) && multiset(r) == multiset(ValuesOf(selected, order))
    ensures forall p <- r :: Best(p, seen)
  {
    forall p | p in r
      ensures Best(p, seen)
    {
      assert p in multiset(r);
      var i :| 0 <= i < |order| && ValuesOf(selected, order)[i] == p;
      assert Best(selected[order[i]], seen);
    }
  }

  lemma SelectionCovers(selected: map<ResourceKey, Pick>, order: seq<ResourceKey>, seen: seq<Pick>, r: seq<Pick>)
    requires Holds(selected, order, seen) && multiset(r) == multiset(ValuesOf(selected, order))
    ensures forall p <- seen :: exists q :: q in r && KeyOf(q.action) == KeyOf(p.action)
  {
    forall p | p in seen
      ensures exists q :: q in r && KeyOf(q.action) == KeyOf(p.action)
    {
      var k := KeyOf(p.action);
      var i :| 0 <= i < |order| && order[i] == k;
      assert ValuesOf(selected, order)[i] == selected[k];
      assert selected[k] in multiset(r);
    }
  }

  /** A permutation keeps keys apart. */
  lemma DistinctKeys(values: seq<Pick>, r: seq<Pick>)
    requires multiset(values) == multiset(r)
    requires forall i, j :: 0 <= i < j < |values| ==> KeyOf(values[i].action) != KeyOf(values[j].action)
    ensures forall i, j :: 0 <= i < j < |r| ==> KeyOf(r[i].action) != KeyOf(r[j].action)
  {
    forall i, j | 0 <= i < j < |r|
      ensures KeyOf(r[i].action) != KeyOf(r[j].action)
    {
      assert r[i] in multiset(r) && r[j] in multiset(r);
      var a :| 0 <= a < |values| && values[a] == r[i];
      var b :| 0 <= b < |values| && values[b] == r[j];
      if r[i] == r[j] { TwiceInMultiset(r, i, j); OnceInMultiset(values, a); }
    }
  }

  lemma TwiceInMultiset(r: seq<Pick>, i: nat, j: nat)
    requires i < j < |r| && r[i] == r[j]
    ensures 2 <= multiset(r)[r[i]]
  {
    assert r == r[..j] + [r[j]] + r[j + 1..];
    assert r[..j][i] == r[i];
    assert r[i] in multiset(r[..j]);
  }

  lemma OnceInMultiset(values: seq<Pick>, a: nat)
    requires a < |values| && forall i, j :: 0 <= i < j < |values| ==> KeyOf(values[i].action) != KeyOf(values[j].action)
    ensures multiset(values)[values[a]] == 1
  {
    assert values == values[..a] + [values[a]] + values[a + 1..];
    assert values[a] !in values[..a] && values[a] !in values[a + 1..];
    assert multiset(values) == multiset(values[..a]) + multiset{values[a]} + multiset(values[a + 1..]);
  }

  // ---------------------------------------------------------------- Before is an order

  lemma {:induction false} AtMostTotal(a: Id, b: Id)
    ensures AtMost(a, b) || AtMost(b, a)
  {
    if a != [] && b != [] { AtMostTotal(a[1..], b[1..]); }
  }

  lemma {:induction false} AtMostTrans(a: Id, b: Id, c: Id)
    requires AtMost(a, b) && AtMost(b, c)
    ensures AtMost(a, c)
  {
    if a != [] && a[0] == b[0] == c[0] { AtMostTrans(a[1..], b[1..], c[1..]); }
  }

  lemma {:induction false} AtMostAntisym(a: Id, b: Id)
    requires AtMost(a, b) && AtMost(b, a)
    ensures a == b
  {
    if a != [] {
      AtMostAntisym(a[1..], b[1..]);
      assert a == [a[0]] + a[1..] && b == [b[0]] + b[1..];
    }
  }

  lemma NotAfterTrans(p: Pick, q: Pick, r: Pick)
    requires NotAfter(p, q) && NotAfter(q, r)
    ensures NotAfter(p, r)
  {
    if p.book == q.book == r.book {
      var a, b, c := p.action.deviceId, q.action.deviceId, r.action.deviceId;
      if a != b && b != c {
        AtMostTrans(a, b, c);
        if a == c { AtMostAntisym(a, b); }
      }
    }
  }

  lemma BeforeIsWeakOrder()
    ensures Sorting.WeakOrder(Before)
  {
    forall p, q | Before(p, q)
      ensures !Before(q, p)
    {
      AtMostTotal(p.action.deviceId, q.action.deviceId);
    }
    forall p, q, r | !Before(q, p) && !Before(r, q)
      ensures !Before(r, p)
    {
      NotAfterTrans(p, q, r);
    }
  }
}
