/** What each playbook proposes, who wins a resource that several want, and how the result is ordered, said of the
    devices, the readings and the playbooks by name (playbooks.py). */
module PlaybookArbitration {
  import opened DurableCore
  import opened Playbooks
  import opened Seqs
  import opened PlaybookProperties

  // ---------------------------------------------------------------- the proposals

  /** A Tier-3 device of the cell. */
  function IsBulk(cell: Id): Device -> bool { (d: Device) => d.tier == 3 && d.cellId == cell }

  lemma {:induction false} BulkCounts(devices: seq<Device>, cell: Id)
    ensures BulkDevices(devices, cell) == |Places(devices, IsBulk(cell))|
  {
    if devices == [] {
      assert Places(devices, IsBulk(cell)) == {};
    } else {
      BulkCounts(devices[..|devices| - 1], cell);
      PlacesGrow(devices, IsBulk(cell));
    }
  }

  /** Some reading of the cell is High, or at least Medium. */
  predicate CongestedAt(readings: seq<Reading>, cell: Id, orMedium: bool) {
    exists r <- readings :: r.cellId == cell && (r.level == High || (orMedium && r.level == Medium))
  }

  /** Energy Guard limits a Tier-3 device that is low on battery in a cell that has been High without a break. */
  ghost predicate GuardsEnergy(o: Observation, c: Config, d: Device, a: Action) {
    && d.tier == 3 && CongestedAt(o.readings, d.cellId, false) && d.battery.Some? && d.battery.value < c.batteryThreshold
    && d.cellId in o.history && o.history[d.cellId] != [] && Unbroken(o.history[d.cellId], o.now, c)
    && a.kind == Qos && a.deviceId == d.deviceId
    && a.parameters == Parameters(EmergencyOnly, 300, [], [], false, a.parameters.runtimeHours)
    && (if d.battery.value >= 3.0 then a.parameters.runtimeHours * 12.0 == d.battery.value else a.parameters.runtimeHours == 0.25)
  }

  /** Storm Shield guarantees a Tier-1 device of a cell that is at least Medium its session and attaches it to the
      emergency slice, and fences it in where that is switched on. */
  predicate ShieldsFromStorm(o: Observation, c: Config, d: Device, a: Action) {
    && o.dust && d.tier == 1 && CongestedAt(o.readings, d.cellId, true) && a.deviceId == d.deviceId
    && match a.kind
       case Qos => a.parameters == Parameters(Guaranteed, c.rollbackSeconds, [], [], false, 0.0)
       case SliceAttach => a.parameters == Parameters(NoProfile, 0, c.emergencySlice, [], false, 0.0)
       case Geofence => c.geofencing && a.parameters == Parameters(NoProfile, 0, [], c.stormPolygon, false, 0.0)
       case SliceDetach => false
  }

  /** Capacity Harvest throttles a Tier-3 device of a High cell that has enough of them. */
  ghost predicate HarvestsCapacity(o: Observation, devices: seq<Device>, c: Config, d: Device, a: Action) {
    && d.tier == 3 && CongestedAt(o.readings, d.cellId, false) && c.minBulkDevices <= |Places(devices, IsBulk(d.cellId))|
    && a == Action(Qos, d.deviceId, Parameters(LowBandwidth, 300, [], [], true, 0.0))
  }

  ghost predicate ProposedFor(o: Observation, devices: seq<Device>, c: Config, d: Device, p: Pick) {
    match p.book
    case EnergyGuardBook => GuardsEnergy(o, c, d, p.action)
    case StormShieldBook => ShieldsFromStorm(o, c, d, p.action)
    case CapacityHarvestBook => HarvestsCapacity(o, devices, c, d, p.action)
  }

  lemma SameProposal(o: Observation, devices: seq<Device>, c: Config, d: Device, p: Pick)
    requires 0.0 <= c.maxGap && 0.0 <= c.sustainedSeconds
    ensures Proposed(o, devices, c, d, p) <==> ProposedFor(o, devices, c, d, p)
  {
    match p.book
    case EnergyGuardBook => SameGuard(o, c, d, p.action);
    case StormShieldBook =>
    case CapacityHarvestBook => BulkCounts(devices, d.cellId);
  }

  lemma SameGuard(o: Observation, c: Config, d: Device, a: Action)
    requires 0.0 <= c.maxGap && 0.0 <= c.sustainedSeconds
    ensures Exhausted(d, o.readings, o.history, o.now, c) && a == QosAction(d.deviceId, EmergencyOnly, 300, false, RuntimeHours(d))
            <==> GuardsEnergy(o, c, d, a)
  {
    if d.cellId in o.history {
      var h := o.history[d.cellId];
      if Sustained(h, o.now, c) { SustainedIsUnbroken(h, o.now, c); }
      if Unbroken(h, o.now, c) { UnbrokenIsSustained(h, o.now, c); }
    }
    if d.battery.Some? { HoursExactly(d, a.parameters.runtimeHours); }
  }

  lemma HoursExactly(d: Device, hours: real)
    requires d.battery.Some?
    ensures RuntimeHours(d) == hours <==> if d.battery.value >= 3.0 then hours * 12.0 == d.battery.value else hours == 0.25
  {}

  /** Which proposals there are, playbook by playbook. */
  lemma ProposalsExactly(o: Observation, devices: seq<Device>, c: Config, p: Pick)
    requires 0.0 <= c.maxGap && 0.0 <= c.sustainedSeconds
    ensures p in Candidates(o, devices, c) <==> exists d :: d in devices && ProposedFor(o, devices, c, d, p)
  {
    CandidatesAreProposed(o, devices, c, p);
    forall d
      ensures Proposed(o, devices, c, d, p) <==> ProposedFor(o, devices, c, d, p)
    {
      SameProposal(o, devices, c, d, p);
    }
  }

  // ---------------------------------------------------------------- the winners

  /** Both actions need the QoS session, the fence, or the slice of one device. */
  predicate Contend(a: Action, b: Action) {
    && a.deviceId == b.deviceId
    && ((a.kind == Qos && b.kind == Qos) || (a.kind == Geofence && b.kind == Geofence)
        || ((a.kind == SliceAttach || a.kind == Kind.SliceDetach) && (b.kind == SliceAttach || b.kind == Kind.SliceDetach)))
  }

  lemma ContendExactly(a: Action, b: Action)
    ensures KeyOf(a) == KeyOf(b) <==> Contend(a, b)
  {}

  /** Energy Guard wins every contest, Storm Shield those against Capacity Harvest; each wanted resource has one
      winner. */
  lemma WinnerByName(r: seq<Pick>, candidates: seq<Pick>, q: Pick)
    requires IsEvaluation(r, candidates) && q in candidates
    ensures exists i :: 0 <= i < |r| && r[i] in candidates && Contend(r[i].action, q.action)
                        && (forall j :: 0 <= j < |r| && Contend(r[j].action, q.action) ==> j == i)
                        && (r[i].book == q.book || r[i].book == EnergyGuardBook || q.book == CapacityHarvestBook)
  {
    var p :| p in r && KeyOf(p.action) == KeyOf(q.action);
    var i :| 0 <= i < |r| && r[i] == p;
    assert Best(r[i], candidates);
    ContendExactly(p.action, q.action);
    forall j | 0 <= j < |r| && Contend(r[j].action, q.action)
      ensures j == i
    {
      ContendExactly(r[j].action, q.action);
      assert KeyOf(r[j].action) == KeyOf(r[i].action);
    }
  }

  // ---------------------------------------------------------------- the order of the result

  /** `a` comes first in a dictionary, or is the same: it is a beginning of `b`, or smaller where they first differ. */
  predicate Lexical(a: Id, b: Id) {
    a <= b || exists k :: 0 <= k < |a| && k < |b| && a[..k] == b[..k] && a[k] < b[k]
  }

  lemma {:induction false} AtMostIsLexical(a: Id, b: Id)
    requires AtMost(a, b)
    ensures Lexical(a, b)
  {
    if a != [] && a[0] == b[0] {
      AtMostIsLexical(a[1..], b[1..]);
      assert a == [a[0]] + a[1..] && b == [b[0]] + b[1..];
      if !(a[1..] <= b[1..]) {
        var k :| 0 <= k < |a[1..]| && k < |b[1..]| && a[1..][..k] == b[1..][..k] && a[1..][k] < b[1..][k];
        assert a[..k + 1] == [a[0]] + a[1..][..k] && b[..k + 1] == [b[0]] + b[1..][..k];
        assert a[..k + 1] == b[..k + 1] && a[k + 1] < b[k + 1];
      }
    } else if a != [] {
      assert a[..0] == b[..0] && a[0] < b[0];
    }
  }

  /** The kinds in the alphabetical order of their names. */
  predicate KindBefore(a: Kind, b: Kind) {
    (a == Geofence && b != Geofence) || (a == Qos && (b == SliceAttach || b == Kind.SliceDetach)) || (a == SliceAttach && b == Kind.SliceDetach)
  }

  /** The result lists the actions of Energy Guard before those of Storm Shield and these before those of Capacity
      Harvest, the actions of one playbook by device, and those for one device by kind. */
  lemma ResultInOrder(r: seq<Pick>, candidates: seq<Pick>, i: nat, j: nat)
    requires IsEvaluation(r, candidates) && i < j < |r|
    ensures var p, q := r[i], r[j];
            && (p.book == q.book || p.book == EnergyGuardBook || q.book == CapacityHarvestBook)
            && (p.book == q.book ==> Lexical(p.action.deviceId, q.action.deviceId))
            && (p.book == q.book && p.action.deviceId == q.action.deviceId ==>
                KindBefore(p.action.kind, q.action.kind))
  {
    var p, q := r[i], r[j];
    assert !Before(q, p) && NotAfter(p, q);
    assert KeyOf(p.action) != KeyOf(q.action);
    if p.book == q.book && p.action.deviceId != q.action.deviceId { AtMostIsLexical(p.action.deviceId, q.action.deviceId); }
  }
}
