/** What the playbooks promise: Energy Guard needs an unbroken window, and the order of the fleet does not matter. */
module PlaybookProperties {
  import opened Options
  import opened DurableCore
  import opened Playbooks
  import Sorting = StableSort

  // ---------------------------------------------------------------- the sustained window

  /** At instant `x` there is a High sample at most one gap old. */
  ghost predicate CoveredAt(samples: seq<Sample>, x: real, c: Config) {
    exists s :: s in samples && s.level.High? && s.time.Some? && s.time.value <= x <= s.time.value + c.maxGap
  }

  /** A window that has been High without a break: only High samples, all dated and none in the future, the
      first old enough, and at every instant since the first a sample at most one gap old. */
  ghost predicate Unbroken(samples: seq<Sample>, now: real, c: Config) {
    && (forall s <- samples :: s.level.High? && s.time.Some? && s.time.value <= now)
    && (exists s :: s in samples && s.time.Some? && s.time.value <= now - c.sustainedSeconds)
    && (forall s, x :: s in samples && s.time.Some? && s.time.value <= x <= now ==> CoveredAt(samples, x, c))
  }

  lemma EarlierIsWeakOrder()
    ensures Sorting.WeakOrder(Earlier)
  {}

  lemma {:induction false} HighTimesMembers(samples: seq<Sample>, t: real)
    requires forall s <- samples :: s.level.High? ==> s.time.Some?
    ensures t in HighTimes(samples) <==> Sample(High, Some(t)) in samples
  {
    if samples != [] {
      var last := samples[|samples| - 1];
      HighTimesMembers(samples[..|samples| - 1], t);
      assert samples == samples[..|samples| - 1] + [last];
    }
  }

  lemma {:induction false} AllHighByLength(samples: seq<Sample>)
    requires forall s <- samples :: s.level.High? ==> s.time.Some?
    ensures |HighTimes(samples)| == |samples| <==> forall s <- samples :: s.level.High?
  {
    if samples != [] {
      var rest, last := samples[..|samples| - 1], samples[|samples| - 1];
      AllHighByLength(rest);
      assert samples == rest + [last];
    }
  }

  lemma SortedTimes(samples: seq<Sample>) returns (times: seq<real>)
    requires forall s <- samples :: s.level.High? ==> s.time.Some?
    ensures times == Sorting.Sort(HighTimes(samples), Earlier)
    ensures forall i, j :: 0 <= i < j < |times| ==> times[i] <= times[j]
    ensures forall t :: t in times <==> Sample(High, Some(t)) in samples
  {
    times := Sorting.Sort(HighTimes(samples), Earlier);
    EarlierIsWeakOrder();
    Sorting.SortSorts(HighTimes(samples), Earlier);
    forall t
      ensures t in times <==> Sample(High, Some(t)) in samples
    {
      Sorting.SortMembers(HighTimes(samples), Earlier, t);
      HighTimesMembers(samples, t);
    }
  }

  /** The last of ascending times that is not after `x`. */
  lemma LastBefore(times: seq<real>, x: real) returns (i: nat)
    requires times != [] && times[0] <= x && forall i, j :: 0 <= i < j < |times| ==> times[i] <= times[j]
    ensures i < |times| && times[i] <= x && (i + 1 < |times| ==> x < times[i + 1])
  {
    i := 0;
    while i + 1 < |times| && times[i + 1] <= x
      invariant i < |times| && times[i] <= x
    {
      i := i + 1;
    }
  }

  lemma SustainedCovers(samples: seq<Sample>, now: real, c: Config, x: real)
    requires 0.0 <= c.maxGap && Sustained(samples, now, c)
             && (exists s :: s in samples && s.time.Some? && s.time.value <= x) && x <= now
    ensures CoveredAt(samples, x, c)
  {
    var times := SortedTimes(samples);
    AllHighByLength(samples);
    var s :| s in samples && s.time.Some? && s.time.value <= x;
    assert s == Sample(High, s.time) && s.time.value in times;
    var i := LastBefore(times, x);
    assert times[i] in times && x <= times[i] + c.maxGap;
    assert Sample(High, Some(times[i])) in samples;
  }

  /** Sustained is exactly an unbroken High window. */
  lemma SustainedIsUnbroken(samples: seq<Sample>, now: real, c: Config)
    requires 0.0 <= c.maxGap && Sustained(samples, now, c)
    ensures Unbroken(samples, now, c)
  {
    var times := SortedTimes(samples);
    AllHighByLength(samples);
    forall s | s in samples
      ensures s.level.High? && s.time.Some? && s.time.value <= now
    {
      assert s.level.High? && s.time.Some?;
      assert s == Sample(High, Some(s.time.value));
      var k :| 0 <= k < |times| && times[k] == s.time.value;
      assert k == |times| - 1 || times[k] <= times[|times| - 1];
    }
    assert times[0] in times;
    var first := Sample(High, Some(times[0]));
    assert first in samples && first.time.value <= now - c.sustainedSeconds;
    forall s, x | s in samples && s.time.Some? && s.time.value <= x <= now
      ensures CoveredAt(samples, x, c)
    {
      SustainedCovers(samples, now, c, x);
    }
  }

  /** Between two neighbouring samples that are too far apart an instant is left uncovered. */
  lemma GapUncovered(samples: seq<Sample>, c: Config, times: seq<real>, i: nat, x: real)
    requires i + 1 < |times| && times[i] + c.maxGap < x < times[i + 1]
    requires forall i, j :: 0 <= i < j < |times| ==> times[i] <= times[j]
    requires forall t :: t in times <==> Sample(High, Some(t)) in samples
    ensures !CoveredAt(samples, x, c)
  {
    forall s | s in samples && s.level.High? && s.time.Some?
      ensures !(s.time.value <= x <= s.time.value + c.maxGap)
    {
      assert s == Sample(High, Some(s.time.value));
      var k :| 0 <= k < |times| && times[k] == s.time.value;
      assert k < i ==> times[k] <= times[i];
      assert i + 1 < k ==> times[i + 1] <= times[k];
    }
  }

  lemma UnbrokenHasNoGap(samples: seq<Sample>, now: real, c: Config, times: seq<real>, i: nat)
    requires 0.0 <= c.maxGap && Unbroken(samples, now, c) && i + 1 < |times|
    requires forall i, j :: 0 <= i < j < |times| ==> times[i] <= times[j]
    requires forall t :: t in times <==> Sample(High, Some(t)) in samples
    ensures times[i + 1] - times[i] <= c.maxGap
  {
    assert times[i] in times && times[i + 1] in times;
    var s := Sample(High, Some(times[i]));
    assert s in samples && Sample(High, Some(times[i + 1])) in samples;
    var x := (times[i] + c.maxGap + times[i + 1]) / 2.0;
    assert s.time.value <= x <= now ==> CoveredAt(samples, x, c);
    if c.maxGap < times[i + 1] - times[i] { GapUncovered(samples, c, times, i, x); }
  }

  /** An unbroken window began long enough ago. */
  lemma UnbrokenIsOld(samples: seq<Sample>, now: real, c: Config, times: seq<real>)
    requires Unbroken(samples, now, c) && forall t :: t in times <==> Sample(High, Some(t)) in samples
    requires forall i, j :: 0 <= i < j < |times| ==> times[i] <= times[j]
    ensures samples != [] && times != [] && times[0] <= now - c.sustainedSeconds
  {
    var s :| s in samples && s.time.Some? && s.time.value <= now - c.sustainedSeconds;
    assert s == Sample(High, Some(s.time.value)) && s.time.value in times;
    var k :| 0 <= k < |times| && times[k] == s.time.value;
    assert 0 < k ==> times[0] <= times[k];
  }

  /** And its last sample is at most one gap old. */
  lemma UnbrokenIsRecent(samples: seq<Sample>, now: real, c: Config, times: seq<real>)
    requires 0.0 <= c.maxGap && 0.0 <= c.sustainedSeconds && Unbroken(samples, now, c) && times != []
    requires forall t :: t in times <==> Sample(High, Some(t)) in samples
    requires forall i, j :: 0 <= i < j < |times| ==> times[i] <= times[j]
    ensures now - c.maxGap <= times[|times| - 1] <= now
  {
    var last := times[|times| - 1];
    assert last in times && Sample(High, Some(last)) in samples;
    var s :| s in samples && s.time.Some? && s.time.value <= now - c.sustainedSeconds;
    assert CoveredAt(samples, now, c);
    var recent :| recent in samples && recent.level.High? && recent.time.Some?
        && recent.time.value <= now <= recent.time.value + c.maxGap;
    assert recent == Sample(High, Some(recent.time.value)) && recent.time.value in times;
    var k :| 0 <= k < |times| && times[k] == recent.time.value;
    assert k < |times| - 1 ==> times[k] <= last;
  }

  lemma UnbrokenIsSustained(samples: seq<Sample>, now: real, c: Config)
    requires 0.0 <= c.maxGap && 0.0 <= c.sustainedSeconds && Unbroken(samples, now, c)
    ensures Sustained(samples, now, c)
  {
    var times := SortedTimes(samples);
    AllHighByLength(samples);
    UnbrokenIsOld(samples, now, c, times);
    UnbrokenIsRecent(samples, now, c, times);
    forall i | 0 <= i < |times| - 1
      ensures times[i + 1] - times[i] <= c.maxGap
    {
      UnbrokenHasNoGap(samples, now, c, times, i);
    }
  }

  lemma {:induction false} EnergyGuardActs(readings: seq<Reading>, devices: seq<Device>, history: map<Id, seq<Sample>>,
                                           now: real, c: Config, a: Action)
    ensures a in EnergyGuard(readings, devices, history, now, c) <==>
            exists d :: d in devices && Exhausted(d, readings, history, now, c)
                        && a == QosAction(d.deviceId, EmergencyOnly, 300, false, RuntimeHours(d))
  {
    if devices != [] {
      EnergyGuardActs(readings, devices[..|devices| - 1], history, now, c, a);
      assert devices == devices[..|devices| - 1] + [devices[|devices| - 1]];
    }
  }

  /** Energy Guard acts on a device exactly when it is a low-battery Tier-3 device in a hot cell whose
      history is an unbroken High window. */
  lemma EnergyGuardNeedsWindow(readings: seq<Reading>, devices: seq<Device>, history: map<Id, seq<Sample>>, now: real,
                               c: Config, d: Device)
    requires 0.0 <= c.maxGap && 0.0 <= c.sustainedSeconds && d in devices
    requires forall e <- devices :: e.deviceId == d.deviceId ==> e == d
    ensures (exists a :: a in EnergyGuard(readings, devices, history, now, c) && a.deviceId == d.deviceId) <==>
            d.tier == 3 && HotCell(readings, d.cellId) && d.battery.Some? && d.battery.value < c.batteryThreshold
            && d.cellId in history && history[d.cellId] != [] && Unbroken(history[d.cellId], now, c)
  {
    if d.cellId in history && Sustained(history[d.cellId], now, c) { SustainedIsUnbroken(history[d.cellId], now, c); }
    if d.cellId in history && Unbroken(history[d.cellId], now, c) { UnbrokenIsSustained(history[d.cellId], now, c); }
    if a: Action :| a in EnergyGuard(readings, devices, history, now, c) && a.deviceId == d.deviceId {
      EnergyGuardActs(readings, devices, history, now, c, a);
    } else if Exhausted(d, readings, history, now, c) {
      EnergyGuardActs(readings, devices, history, now, c, QosAction(d.deviceId, EmergencyOnly, 300, false, RuntimeHours(d)));
    }
  }

  // ---------------------------------------------------------------- the order of the fleet

  /** `es` lists the devices of `ds` in some order; identities are distinct. */
  ghost predicate SameFleet(ds: seq<Device>, es: seq<Device>) {
    && multiset(ds) == multiset(es)
    && (forall d, e :: d in ds && e in ds && d.deviceId == e.deviceId ==> d == e)
    && (forall i, j :: 0 <= i < j < |ds| ==> ds[i].deviceId != ds[j].deviceId)
  }

  lemma {:induction false} BulkAppend(xs: seq<Device>, ys: seq<Device>, cell: Id)
    ensures BulkDevices(xs + ys, cell) == BulkDevices(xs, cell) + BulkDevices(ys, cell)
  {
    if ys == [] {
      assert xs + ys == xs;
    } else {
      BulkAppend(xs, ys[..|ys| - 1], cell);
      assert (xs + ys)[..|xs + ys| - 1] == xs + ys[..|ys| - 1];
    }
  }

  lemma RemoveOne(ys: seq<Device>, i: nat, cell: Id)
    requires i < |ys|
    ensures var others := ys[..i] + ys[i + 1..];
            && multiset(others) == multiset(ys) - multiset{ys[i]}
            && BulkDevices(ys, cell) == BulkDevices(others, cell) + BulkDevices([ys[i]], cell)
  {
    assert ys == ys[..i] + ([ys[i]] + ys[i + 1..]);
    BulkAppend(ys[..i], ys[i + 1..], cell);
    BulkAppend(ys[..i], [ys[i]] + ys[i + 1..], cell);
    BulkAppend([ys[i]], ys[i + 1..], cell);
  }

  /** The number of bulk devices in a cell does not depend on the order of the fleet. */
  lemma {:induction false} BulkPermutes(xs: seq<Device>, ys: seq<Device>, cell: Id)
    requires multiset(xs) == multiset(ys)
    ensures BulkDevices(xs, cell) == BulkDevices(ys, cell)
    decreases |xs|
  {
    if xs == [] {
      assert |multiset(ys)| == |ys|;
    } else {
      var n := |xs| - 1;
      assert xs[n] in multiset(ys);
      var i :| 0 <= i < |ys| && ys[i] == xs[n];
      RemoveOne(xs, n, cell);
      RemoveOne(ys, i, cell);
      BulkPermutes(xs[..n] + xs[n + 1..], ys[..i] + ys[i + 1..], cell);
    }
  }

  lemma {:induction false} HarvestActs(readings: seq<Reading>, devices: seq<Device>, fleet: seq<Device>, c: Config,
                                       a: Action)
    ensures a in Harvest(readings, devices, fleet, c) <==>
            exists d :: d in devices && Harvestable(d, readings, fleet, c) && a == QosAction(d.deviceId, LowBandwidth, 300, true, 0.0)
  {
    if devices != [] {
      HarvestActs(readings, devices[..|devices| - 1], fleet, c, a);
      assert devices == devices[..|devices| - 1] + [devices[|devices| - 1]];
    }
  }

  lemma {:induction false} ShieldsAct(readings: seq<Reading>, devices: seq<Device>, c: Config, a: Action)
    ensures a in Shields(readings, devices, c) <==> exists d :: d in devices && Threatened(readings, d) && a in Shield(d, c)
  {
    if devices != [] {
      ShieldsAct(readings, devices[..|devices| - 1], c, a);
      assert devices == devices[..|devices| - 1] + [devices[|devices| - 1]];
    }
  }

  /** Which proposals there are, said of each device by itself. */
  ghost predicate Proposed(o: Observation, fleet: seq<Device>, c: Config, d: Device, p: Pick) {
    match p.book
    case EnergyGuardBook =>
      Exhausted(d, o.readings, o.history, o.now, c) && p.action == QosAction(d.deviceId, EmergencyOnly, 300, false, RuntimeHours(d))
    case StormShieldBook => o.dust && Threatened(o.readings, d) && p.action in Shield(d, c)
    case CapacityHarvestBook => Harvestable(d, o.readings, fleet, c) && p.action == QosAction(d.deviceId, LowBandwidth, 300, true, 0.0)
  }

  lemma TaggedMembers(book: Playbook, actions: seq<Action>, p: Pick)
    ensures p in Tagged(book, actions) <==> p.book == book && p.action in actions
  {
    if p.book == book && p.action in actions {
      var i :| 0 <= i < |actions| && actions[i] == p.action;
      assert Tagged(book, actions)[i] == p;
    }
  }

  lemma CandidatesAreProposed(o: Observation, devices: seq<Device>, c: Config, p: Pick)
    ensures p in Candidates(o, devices, c) <==> exists d :: d in devices && Proposed(o, devices, c, d, p)
  {
    TaggedMembers(EnergyGuardBook, EnergyGuard(o.readings, devices, o.history, o.now, c), p);
    TaggedMembers(StormShieldBook, StormShield(o.dust, o.readings, devices, c), p);
    TaggedMembers(CapacityHarvestBook, CapacityHarvest(o.readings, devices, c), p);
    EnergyGuardActs(o.readings, devices, o.history, o.now, c, p.action);
    ShieldsAct(o.readings, devices, c, p.action);
    HarvestActs(o.readings, devices, devices, c, p.action);
  }

  /** The fleet in another order makes the same proposals. */
  lemma SameProposals(o: Observation, ds: seq<Device>, es: seq<Device>, c: Config, p: Pick)
    requires SameFleet(ds, es)
    ensures p in Candidates(o, ds, c) <==> p in Candidates(o, es, c)
  {
    CandidatesAreProposed(o, ds, c, p);
    CandidatesAreProposed(o, es, c, p);
    forall d
      ensures d in ds <==> d in es
      ensures Proposed(o, ds, c, d, p) <==> Proposed(o, es, c, d, p)
    {
      assert d in multiset(ds) <==> d in multiset(es);
      BulkPermutes(ds, es, d.cellId);
    }
  }

  /** No playbook makes two proposals for one resource. */
  ghost predicate Unambiguous(candidates: seq<Pick>) {
    forall p, q :: p in candidates && q in candidates && KeyOf(p.action) == KeyOf(q.action) && p.book == q.book ==> p == q
  }

  lemma ProposedOnce(o: Observation, fleet: seq<Device>, c: Config, d: Device, p: Pick, q: Pick)
    requires Proposed(o, fleet, c, d, p) && Proposed(o, fleet, c, d, q) && p.book == q.book && KeyOf(p.action) == KeyOf(q.action)
    ensures p == q
  {}

  lemma ProposedFor(o: Observation, fleet: seq<Device>, c: Config, d: Device, p: Pick)
    requires Proposed(o, fleet, c, d, p)
    ensures KeyOf(p.action).deviceId == d.deviceId
  {}

  lemma DistinctFleetIsUnambiguous(o: Observation, ds: seq<Device>, c: Config)
    requires forall d, e :: d in ds && e in ds && d.deviceId == e.deviceId ==> d == e
    ensures Unambiguous(Candidates(o, ds, c))
  {
    forall p, q | p in Candidates(o, ds, c) && q in Candidates(o, ds, c) && KeyOf(p.action) == KeyOf(q.action) && p.book == q.book
      ensures p == q
    {
      CandidatesAreProposed(o, ds, c, p);
      CandidatesAreProposed(o, ds, c, q);
      var d :| d in ds && Proposed(o, ds, c, d, p);
      var e :| e in ds && Proposed(o, ds, c, e, q);
      ProposedFor(o, ds, c, d, p);
      ProposedFor(o, ds, c, e, q);
      ProposedOnce(o, ds, c, d, p, q);
    }
  }

  lemma EvaluationMembers(r: seq<Pick>, candidates: seq<Pick>, p: Pick)
    requires IsEvaluation(r, candidates) && Unambiguous(candidates)
    ensures p in r <==> Best(p, candidates)
  {
    if Best(p, candidates) {
      var q :| q in r && KeyOf(q.action) == KeyOf(p.action);
      assert Best(q, candidates);
      assert Precedence(p.book) == Precedence(q.book);
    }
  }

  lemma {:induction false} DistinctMultiset(r: seq<Pick>, p: Pick)
    requires forall i, j :: 0 <= i < j < |r| ==> KeyOf(r[i].action) != KeyOf(r[j].action)
    ensures multiset(r)[p] == if p in r then 1 else 0
  {
    if p in r {
      var a :| 0 <= a < |r| && r[a] == p;
      OnceInMultiset(r, a);
    }
  }

  lemma EvaluationIsStrict(r: seq<Pick>, candidates: seq<Pick>)
    requires IsEvaluation(r, candidates)
    ensures Sorting.Strict(multiset(r), Before)
  {
    forall p, q | p in multiset(r) && q in multiset(r) && p != q
      ensures Before(p, q) || Before(q, p)
    {
      var i :| 0 <= i < |r| && r[i] == p;
      var j :| 0 <= j < |r| && r[j] == q;
      assert KeyOf(r[i].action) != KeyOf(r[j].action);
      AtMostTotal(p.action.deviceId, q.action.deviceId);
      if p.action.deviceId != q.action.deviceId && AtMost(p.action.deviceId, q.action.deviceId)
          && AtMost(q.action.deviceId, p.action.deviceId) {
        AtMostAntisym(p.action.deviceId, q.action.deviceId);
      }
    }
  }

  lemma SameBest(ps: seq<Pick>, qs: seq<Pick>, p: Pick)
    requires forall q :: q in ps <==> q in qs
    ensures Best(p, ps) <==> Best(p, qs)
  {}

  /** How often a pick is in an evaluation: once when it is best, else never. */
  lemma EvaluationCount(r: seq<Pick>, candidates: seq<Pick>, p: Pick)
    requires IsEvaluation(r, candidates) && Unambiguous(candidates)
    ensures multiset(r)[p] == if Best(p, candidates) then 1 else 0
  {
    EvaluationMembers(r, candidates, p);
    DistinctMultiset(r, p);
  }

  lemma EvaluationMultiset(r: seq<Pick>, s: seq<Pick>, ps: seq<Pick>, qs: seq<Pick>)
    requires IsEvaluation(r, ps) && IsEvaluation(s, qs) && Unambiguous(ps) && Unambiguous(qs)
    requires forall p :: p in ps <==> p in qs
    ensures multiset(r) == multiset(s)
  {
    forall p
      ensures multiset(r)[p] == multiset(s)[p]
    {
      SameCount(r, s, ps, qs, p);
    }
    assert multiset(r) == multiset(s);
  }

  lemma SameCount(r: seq<Pick>, s: seq<Pick>, ps: seq<Pick>, qs: seq<Pick>, p: Pick)
    requires IsEvaluation(r, ps) && IsEvaluation(s, qs) && Unambiguous(ps) && Unambiguous(qs)
    requires forall q :: q in ps <==> q in qs
    ensures multiset(r)[p] == multiset(s)[p]
  {
    EvaluationCount(r, ps, p);
    EvaluationCount(s, qs, p);
    SameBest(ps, qs, p);
  }

  /** The same unambiguous proposals, in whatever order, have one evaluation. */
  lemma EvaluationIsUnique(r: seq<Pick>, s: seq<Pick>, ps: seq<Pick>, qs: seq<Pick>)
    requires IsEvaluation(r, ps) && IsEvaluation(s, qs) && Unambiguous(ps) && Unambiguous(qs)
    requires forall p :: p in ps <==> p in qs
    ensures r == s
  {
    EvaluationMultiset(r, s, ps, qs);
    EvaluationIsStrict(r, ps);
    SortedOnce(r, s);
  }

  lemma SortedOnce(r: seq<Pick>, s: seq<Pick>)
    requires Sorting.Sorted(r, Before) && Sorting.Sorted(s, Before) && multiset(r) == multiset(s)
             && Sorting.Strict(multiset(r), Before)
    ensures r == s
  {
    BeforeIsWeakOrder();
    Sorting.SortedUnique(r, s, Before);
  }

  /** The plan does not depend on the order in which the devices are listed. */
  lemma OrderDoesNotMatter(o: Observation, ds: seq<Device>, es: seq<Device>, c: Config, r: seq<Pick>, s: seq<Pick>)
    requires SameFleet(ds, es)
    requires IsEvaluation(r, Candidates(o, ds, c)) && IsEvaluation(s, Candidates(o, es, c))
    ensures r == s
  {
    forall p
      ensures p in Candidates(o, ds, c) <==> p in Candidates(o, es, c)
    {
      SameProposals(o, ds, es, c, p);
    }
    DistinctFleetIsUnambiguous(o, ds, c);
    SameFleetDistinct(ds, es);
    DistinctFleetIsUnambiguous(o, es, c);
    EvaluationIsUnique(r, s, Candidates(o, ds, c), Candidates(o, es, c));
  }

  lemma SameFleetDistinct(ds: seq<Device>, es: seq<Device>)
    requires SameFleet(ds, es)
    ensures forall d, e :: d in es && e in es && d.deviceId == e.deviceId ==> d == e
  {
    forall d | d in es
      ensures d in ds
    {
      assert d in multiset(es);
    }
  }
}
