/** Which proposals TRIAGE takes when there are more devices than it may act on, what its plan costs and marks, and what
    WARDEN makes of a plan, said of the fleet, the readings and the actions themselves (agents.py). */
module TriageOrder {
  import opened Options
  import opened DurableCore
  import opened Playbooks
  import opened Triage
  import opened Seqs
  import Properties = TriageProperties
  import Sorting = StableSort

  // ---------------------------------------------------------------- the standing of a device

  /** What the priority of a device is made of; a cell without a reading counts as one without congestion. */
  datatype Standing = Standing(tier: int, level: Level, tierOne: nat, confidence: int)

  predicate Above(a: Level, b: Level) {
    (a == High && b != High) || (a == Medium && (b == Low || b == NoCongestion)) || (a == Low && b == NoCongestion)
  }

  /** A lower tier number counts most, then the congestion of the cell, then the number of its Tier-1 devices, then the
      confidence of its reading. */
  predicate Outranks(a: Standing, b: Standing) {
    a.tier < b.tier ||
    (a.tier == b.tier &&
     (Above(a.level, b.level) ||
      (a.level == b.level && (b.tierOne < a.tierOne || (b.tierOne == a.tierOne && b.confidence < a.confidence)))))
  }

  /** Device `k` is the last of its identity. */
  predicate DeviceAt(devices: seq<Device>, id: Id, k: int) {
    0 <= k < |devices| && devices[k].deviceId == id && forall j :: k < j < |devices| ==> devices[j].deviceId != id
  }

  /** Reading `k` is the last of its cell. */
  predicate ReadingAt(readings: seq<Reading>, cell: Id, k: int) {
    0 <= k < |readings| && readings[k].cellId == cell && forall j :: k < j < |readings| ==> readings[j].cellId != cell
  }

  function TierOnes(devices: seq<Device>, cell: Id): set<int> {
    set k | 0 <= k < |devices| && devices[k].tier == 1 && devices[k].cellId == cell
  }

  ghost predicate Stands(devices: seq<Device>, readings: seq<Reading>, id: Id, s: Standing) {
    exists k :: DeviceAt(devices, id, k) && devices[k].tier == s.tier && s.tierOne == |TierOnes(devices, devices[k].cellId)|
                && Read(readings, devices[k].cellId, s)
  }

  ghost predicate Read(readings: seq<Reading>, cell: Id, s: Standing) {
    if forall r <- readings :: r.cellId != cell then s.level == NoCongestion && s.confidence == 0
    else exists k :: ReadingAt(readings, cell, k) && readings[k].level == s.level && readings[k].confidence == s.confidence
  }

  lemma {:induction false} FindsDevice(devices: seq<Device>, id: Id, k: int)
    requires DeviceAt(devices, id, k)
    ensures FindDevice(devices, id) == Some(devices[k])
  {
    var n := |devices| - 1;
    if k < n { FindsDevice(devices[..n], id, k); }
  }

  lemma {:induction false} FindsReading(readings: seq<Reading>, cell: Id, k: int)
    requires ReadingAt(readings, cell, k)
    ensures FindReading(readings, cell) == Some(readings[k])
  {
    var n := |readings| - 1;
    if k < n { FindsReading(readings[..n], cell, k); }
  }

  lemma {:induction false} FindsNone(readings: seq<Reading>, cell: Id)
    requires forall r <- readings :: r.cellId != cell
    ensures FindReading(readings, cell) == None
  {
    if readings != [] { FindsNone(readings[..|readings| - 1], cell); }
  }

  lemma {:induction false} TierOneCounts(devices: seq<Device>, cell: Id)
    ensures TierOneIn(devices, cell) == |TierOnes(devices, cell)|
  {
    if devices == [] {
      assert TierOnes(devices, cell) == {};
    } else {
      var n := |devices| - 1;
      TierOneCounts(devices[..n], cell);
      assert TierOnes(devices, cell) == TierOnes(devices[..n], cell) + if devices[n].tier == 1 && devices[n].cellId == cell then {n} else {};
    }
  }

  function Weight(s: Standing): seq<int> {
    [(4 - s.tier) * 1000, (match s.level case NoCongestion => 0 case Low => 100 case Medium => 200 case High => 300), s.tierOne, s.confidence]
  }

  lemma FoundWeighs(a: Action, devices: seq<Device>, readings: seq<Reading>, s: Standing, d: Device,
                    reading: Option<Reading>)
    requires FindDevice(devices, a.deviceId) == Some(d) && d.tier == s.tier && TierOneIn(devices, d.cellId) == s.tierOne
    requires FindReading(readings, d.cellId) == reading
    requires if reading.None? then s.level == NoCongestion && s.confidence == 0
             else reading.value.level == s.level && reading.value.confidence == s.confidence
    ensures PriorityOf(a, devices, readings) == Weight(s)
  {}

  lemma PriorityWeighs(a: Action, devices: seq<Device>, readings: seq<Reading>, s: Standing)
    requires Stands(devices, readings, a.deviceId, s)
    ensures PriorityOf(a, devices, readings) == Weight(s)
  {
    var k :| DeviceAt(devices, a.deviceId, k) && devices[k].tier == s.tier && s.tierOne == |TierOnes(devices, devices[k].cellId)|
             && Read(readings, devices[k].cellId, s);
    FindsDevice(devices, a.deviceId, k);
    TierOneCounts(devices, devices[k].cellId);
    var reading := ReadingFound(readings, devices[k].cellId, s);
    FoundWeighs(a, devices, readings, s, devices[k], reading);
  }

  lemma ReadingFound(readings: seq<Reading>, cell: Id, s: Standing) returns (reading: Option<Reading>)
    requires Read(readings, cell, s)
    ensures FindReading(readings, cell) == reading
    ensures if reading.None? then s.level == NoCongestion && s.confidence == 0
            else reading.value.level == s.level && reading.value.confidence == s.confidence
  {
    if forall r <- readings :: r.cellId != cell {
      FindsNone(readings, cell);
      reading := None;
    } else {
      var j :| ReadingAt(readings, cell, j) && readings[j].level == s.level && readings[j].confidence == s.confidence;
      FindsReading(readings, cell, j);
      reading := Some(readings[j]);
    }
  }

  lemma WeightOrders(a: Standing, b: Standing)
    ensures TupleAtMost(Weight(a), Weight(b)) <==> !Outranks(a, b)
  {
    var x, y := Weight(a), Weight(b);
    AtMostAt(x, y);
    AtMostAt(x[1..], y[1..]);
    AtMostAt(x[2..], y[2..]);
    AtMostAt(x[3..], y[3..]);
    assert x[1..][1..] == x[2..] && y[1..][1..] == y[2..] && x[2..][1..] == x[3..] && y[2..][1..] == y[3..] && x[3..][1..] == y[3..][1..] == [];
  }

  lemma AtMostAt(x: seq<int>, y: seq<int>)
    requires x != [] && y != []
    ensures TupleAtMost(x, y) <==> x[0] < y[0] || (x[0] == y[0] && TupleAtMost(x[1..], y[1..]))
  {}

  // ---------------------------------------------------------------- the ranking

  lemma {:induction false} AtMostTotal(a: seq<int>, b: seq<int>)
    ensures TupleAtMost(a, b) || TupleAtMost(b, a)
  {
    if a != [] && b != [] { AtMostTotal(a[1..], b[1..]); }
  }

  lemma {:induction false} AtMostTrans(a: seq<int>, b: seq<int>, c: seq<int>)
    requires TupleAtMost(a, b) && TupleAtMost(b, c)
    ensures TupleAtMost(a, c)
  {
    if a != [] && a[0] == b[0] == c[0] { AtMostTrans(a[1..], b[1..], c[1..]); }
  }

  lemma HigherFirstIsWeakOrder()
    ensures Sorting.WeakOrder(HigherFirst)
  {
    forall a, b | HigherFirst(a, b)
      ensures !HigherFirst(b, a)
    {
      AtMostTotal(a.priority, b.priority);
    }
    forall a, b, c | !HigherFirst(b, a) && !HigherFirst(c, b)
      ensures !HigherFirst(c, a)
    {
      AtMostTrans(c.priority, b.priority, a.priority);
    }
  }

  function IndexOf(c: Candidate): int { c.index }

  /** The ranked proposals without advice: of two the one of lower standing never comes first, and of two that the order
      does not tell apart the one that was proposed earlier does. */
  lemma RankedByStanding(actions: seq<Action>, devices: seq<Device>, readings: seq<Reading>, i: nat, j: nat,
                         x: Standing,
                         y: Standing)
    requires i < j < |actions|
    requires var ranked := Sorting.Sort(CandidatesOf(actions, devices, readings), HigherFirst);
             Stands(devices, readings, ranked[i].action.deviceId, x) && Stands(devices, readings, ranked[j].action.deviceId, y)
    ensures var ranked := Sorting.Sort(CandidatesOf(actions, devices, readings), HigherFirst);
            !Outranks(y, x) && (!Outranks(x, y) ==> ranked[i].index < ranked[j].index)
  {
    var cs := CandidatesOf(actions, devices, readings);
    var ranked := Sorting.Sort(cs, HigherFirst);
    HigherFirstIsWeakOrder();
    Sorting.SortSorts(cs, HigherFirst);
    Sorting.SortStable(cs, HigherFirst, IndexOf);
    RankedPriority(actions, devices, readings, ranked[i]);
    RankedPriority(actions, devices, readings, ranked[j]);
    PriorityWeighs(ranked[i].action, devices, readings, x);
    PriorityWeighs(ranked[j].action, devices, readings, y);
    WeightOrders(x, y);
    WeightOrders(y, x);
    assert !HigherFirst(ranked[j], ranked[i]);
  }

  lemma {:induction false} CandidatePriority(actions: seq<Action>, devices: seq<Device>, readings: seq<Reading>, i: nat)
    requires i < |actions|
    ensures CandidatesOf(actions, devices, readings)[i].priority == PriorityOf(actions[i], devices, readings)
  {
    var n := |actions| - 1;
    if i < n { CandidatePriority(actions[..n], devices, readings, i); }
  }

  lemma RankedPriority(actions: seq<Action>, devices: seq<Device>, readings: seq<Reading>, c: Candidate)
    requires c in Sorting.Sort(CandidatesOf(actions, devices, readings), HigherFirst)
    ensures c.priority == PriorityOf(c.action, devices, readings)
  {
    var cs := CandidatesOf(actions, devices, readings);
    Sorting.SortMembers(cs, HigherFirst, c);
    var i :| 0 <= i < |cs| && cs[i] == c;
    CandidatePriority(actions, devices, readings, i);
  }

  // ---------------------------------------------------------------- the selection

  lemma {:induction false} DistinctFrom(cs: seq<Candidate>, x: Id)
    requires x in DistinctDevices(cs)
    ensures exists i :: 0 <= i < |cs| && cs[i].action.deviceId == x
  {
    var n := |cs| - 1;
    if cs[n].action.deviceId != x {
      DistinctFrom(cs[..n], x);
      var i :| 0 <= i < n && cs[..n][i].action.deviceId == x;
      assert cs[i].action.deviceId == x;
    }
  }

  /** A selected device has a proposal before every proposal of a device that was left out, and the limit is used up. */
  lemma SelectedBefore(cs: seq<Candidate>, max: nat, d: Id, j: nat) returns (i: nat)
    requires j < |cs| && d in FirstDevices(cs, max) && cs[j].action.deviceId !in FirstDevices(cs, max)
    ensures i < j && cs[i].action.deviceId == d && |FirstDevices(cs, max)| == max
  {
    var all, early, e := DistinctDevices(cs), DistinctDevices(cs[..j + 1]), cs[j].action.deviceId;
    DistinctGrows(cs, j + 1);
    DistinctHasAll(cs, j);
    DistinctHasAll(cs[..j + 1], j);
    var k :| 0 <= k < |early| && early[k] == e;
    assert all[k] == e && max <= k;
    var m :| 0 <= m < max && all[m] == d;
    assert early[m] == d;
    DistinctFrom(cs[..j + 1], d);
    i :| 0 <= i < j + 1 && cs[..j + 1][i].action.deviceId == d;
  }

  /** Without the advice of the crew no device is left out for one that it outranks: Tier 1 before Tier 3, and so on.
      And none is left out while there is room. */
  lemma HighestStandingSelected(actions: seq<Action>, devices: seq<Device>, readings: seq<Reading>, advice: Advice,
                                g: Guardrails, d: Id, a: Action, x: Standing, y: Standing)
    requires advice.crewOrder == [] && Stands(devices, readings, d, x) && Stands(devices, readings, a.deviceId, y)
    requires var plan := Triaged(actions, devices, readings, advice, g); d in plan.selected && a in actions && a.deviceId !in plan.selected
    ensures !Outranks(y, x) && |Triaged(actions, devices, readings, advice, g).selected| == g.maxDevices
  {
    var cs := CandidatesOf(actions, devices, readings);
    var ranked := Sorting.Sort(cs, HigherFirst);
    assert ranked == RankedCandidates(actions, devices, readings, advice);
    var n :| 0 <= n < |actions| && actions[n] == a;
    Sorting.SortMembers(cs, HigherFirst, cs[n]);
    var j :| 0 <= j < |ranked| && ranked[j] == cs[n];
    var i := SelectedBefore(ranked, g.maxDevices, d, j);
    RankedByStanding(actions, devices, readings, i, j, x, y);
  }

  // ---------------------------------------------------------------- the figures of a plan

  /** A QoS session, guaranteed or not. */
  function IsSession(guaranteed: bool): Action -> bool {
    (a: Action) => a.kind == Qos && (a.parameters.profile == Guaranteed) == guaranteed
  }

  function Sessions(actions: seq<Action>, guaranteed: bool): set<int> { Places(actions, IsSession(guaranteed)) }

  lemma {:induction false} CostCounts(actions: seq<Action>)
    ensures CostOf(actions) == 75 * |Sessions(actions, true)| + 20 * |Sessions(actions, false)|
  {
    if actions == [] {
      assert Sessions(actions, true) == {} && Sessions(actions, false) == {};
    } else {
      CostCounts(actions[..|actions| - 1]);
      PlacesGrow(actions, IsSession(true));
      PlacesGrow(actions, IsSession(false));
    }
  }

  /** The order of the actions does not matter to their cost. */
  lemma {:induction false} CostPermutes(xs: seq<Action>, ys: seq<Action>)
    requires multiset(xs) == multiset(ys)
    ensures CostOf(xs) == CostOf(ys)
    decreases |xs|
  {
    if xs == [] {
      assert |multiset(ys)| == |ys|;
    } else {
      var j := Occurs(xs, ys, 0);
      RemovedOne(xs, 0);
      RemovedOne(ys, j);
      assert multiset(Removed(xs, 0)) == multiset(xs) - multiset{xs[0]};
      assert multiset(Removed(ys, j)) == multiset(ys) - multiset{ys[j]};
      CostPermutes(Removed(xs, 0), Removed(ys, j));
      CostWithout(xs, 0);
      CostWithout(ys, j);
    }
  }

  lemma {:induction false} CostWithout(xs: seq<Action>, i: nat)
    requires i < |xs|
    ensures CostOf(xs) == CostOf(Removed(xs, i)) + CostOf([xs[i]])
  {
    var n := |xs| - 1;
    if i < n {
      CostWithout(xs[..n], i);
      assert Removed(xs, i)[..n - 1] == Removed(xs[..n], i);
    } else {
      assert Removed(xs, i) == xs[..n];
    }
  }

  /** The figures that both nodes compute: 75 cents for a guaranteed session and 20 for any other, the share of the
      fleet that is acted on, at most all of it, and the mark of a plan that exceeds a limit or falls short of the
      confidence. */
  ghost predicate Figured(plan: Plan, fleet: nat, g: Guardrails) {
    && plan.costCents == 75 * |Sessions(plan.actions, true)| + 20 * |Sessions(plan.actions, false)|
    && (fleet <= |plan.selected| ==> plan.blastRadius == if plan.selected == [] then 0.0 else 1.0)
    && (|plan.selected| < fleet ==> plan.blastRadius * fleet as real == |plan.selected| as real)
    && (plan.approvalRequired <==>
        plan.blastRadius > g.maxBlastRadius || plan.confidence < g.minimumConfidence || plan.costCents > g.ceilingCents)
  }

  lemma BlastIsShare(selected: nat, fleet: nat)
    ensures fleet <= selected ==> BlastRadius(selected, fleet) == if selected == 0 then 0.0 else 1.0
    ensures selected < fleet ==> BlastRadius(selected, fleet) * fleet as real == selected as real
  {
    var n := if fleet == 0 then 1 else fleet;
    var r := selected as real / n as real;
    assert r * n as real == selected as real;
    if selected < fleet { assert r < 1.0; }
    if n <= selected { assert 1.0 <= r; }
  }

  lemma PlanIsFigured(actions: seq<Action>, selected: seq<Id>, cost: nat, confidence: real, fleet: nat, g: Guardrails)
    requires cost == 75 * |Sessions(actions, true)| + 20 * |Sessions(actions, false)|
    ensures Figured(PlanOf(actions, selected, cost, confidence, fleet, g), fleet, g)
  {
    BlastIsShare(|selected|, fleet);
  }

  /** The confidence is the sum of the model's and the crew's, within 0 and 1, and a successful precedent adds 3
      points. */
  predicate Confident(a: Advice, confidence: real) {
    var sum := a.plannerConfidence + a.crewModifier;
    var clamped := if sum <= 0.0 then 0.0 else if sum >= 1.0 then 1.0 else sum;
    if !a.successfulPrior then confidence == clamped
    else if clamped >= 0.97 then confidence == 1.0 else confidence == clamped + 0.03
  }

  lemma TriagedFigures(actions: seq<Action>, devices: seq<Device>, readings: seq<Reading>, advice: Advice,
                       g: Guardrails)
    ensures var plan := Triaged(actions, devices, readings, advice, g);
            Figured(plan, |devices|, g) && Confident(advice, plan.confidence)
  {
    var ranked := RankedCandidates(actions, devices, readings, advice);
    var selected := FirstDevices(ranked, g.maxDevices);
    var chosen := DistinctActions(ranked, selected);
    Properties.AdvicePermutes(chosen, advice.plannerOrder);
    MapPermutes(chosen, Advised(chosen, advice.plannerOrder), ActionOf);
    CostPermutes(ActionsOf(chosen), ActionsOf(Advised(chosen, advice.plannerOrder)));
    var planned := ActionsOf(Advised(chosen, advice.plannerOrder));
    CostCounts(planned);
    PlanIsFigured(planned, selected, CostOf(ActionsOf(chosen)), ConfidenceOf(advice), |devices|, g);
    AdviceIsConfident(advice);
  }

  lemma AdviceIsConfident(a: Advice)
    ensures Confident(a, ConfidenceOf(a))
  {}

  lemma {:induction false} KeptExactly(actions: seq<Action>, p: DurablePolicy, a: Action)
    ensures a in PermittedActions(actions, p) <==>
            && a in actions && a !in p.unsafeActions && (p.scopeEnforced ==> a.deviceId in p.allowedDevices)
            && (a.kind == SliceAttach ==> p.sliceOperating)
  {
    if actions != [] {
      KeptExactly(actions[..|actions| - 1], p, a);
      assert actions == actions[..|actions| - 1] + [actions[|actions| - 1]];
    }
  }

  lemma {:induction false} DevicesExactly(actions: seq<Action>)
    ensures AllDistinct(DevicesOf(actions)) && forall d :: d in DevicesOf(actions) <==> exists a :: a in actions && a.deviceId == d
  {
    if actions != [] {
      var rest, last := actions[..|actions| - 1], actions[|actions| - 1];
      DevicesExactly(rest);
      assert actions == rest + [last];
      if last.deviceId !in DevicesOf(rest) { AppendDistinct(DevicesOf(rest), last.deviceId); }
    }
  }

  /** The normalized plan keeps exactly the actions that are safe, in scope and possible, acts on their devices and no
      others, and its figures are theirs. */
  lemma NormalizedFigures(plan: Plan, p: DurablePolicy, fleet: nat, g: Guardrails, a: Action, d: Id)
    ensures var n := Normalized(plan, p, fleet, g);
            && Figured(n, fleet, g) && n.confidence == plan.confidence && AllDistinct(n.selected)
            && (a in n.actions <==>
                && a in plan.actions && a !in p.unsafeActions && (p.scopeEnforced ==> a.deviceId in p.allowedDevices)
                && (a.kind == SliceAttach ==> p.sliceOperating))
            && (d in n.selected <==> exists b :: b in n.actions && b.deviceId == d)
  {
    var kept := PermittedActions(plan.actions, p);
    CostCounts(kept);
    KeptExactly(plan.actions, p, a);
    DevicesExactly(kept);
    PlanIsFigured(kept, DevicesOf(kept), CostOf(kept), plan.confidence, fleet, g);
  }

  // ---------------------------------------------------------------- WARDEN's checks

  /** What WARDEN lets through: a QoS session with a profile and a duration, an attachment to a slice, a fence around an
      area. */
  predicate SafeAction(a: Action) {
    match a.kind
    case Qos => a.parameters.profile != NoProfile && a.parameters.duration != 0
    case SliceAttach => |a.parameters.sliceId| > 0
    case Geofence => |a.parameters.polygonId| > 0
    case SliceDetach => false
  }

  /** WARDEN approves exactly the plans that have actions, all of them safe, none declared unsafe by the client, none
      twice, on selected devices within the limit, and figures within the bounds. */
  lemma ApprovesExactly(plan: Plan, unsafeActions: set<Action>, g: Guardrails)
    ensures Approves(plan, unsafeActions, g) <==>
            && plan.confidence >= g.minimumConfidence && plan.blastRadius <= g.maxBlastRadius && plan.costCents <= g.ceilingCents
            && 0 < |plan.actions| && |(set a | a in plan.actions :: a.deviceId)| <= g.maxDevices && AllDistinct(plan.actions)
            && forall a <- plan.actions :: SafeAction(a) && a.deviceId in plan.selected && a !in unsafeActions
  {
    forall a: Action
      ensures KindAllowed(a) && WellParametrised(a) <==> SafeAction(a)
    {}
    if NoDuplicates(plan) { CountDistinct(plan.actions); }
    if AllDistinct(plan.actions) { DistinctCount(plan.actions); }
  }

  /** As many different elements as places: none occurs twice. */
  lemma {:induction false} CountDistinct<T>(xs: seq<T>)
    requires |(set x | x in xs)| == |xs|
    ensures AllDistinct(xs)
  {
    if xs != [] {
      var rest, last := xs[..|xs| - 1], xs[|xs| - 1];
      assert xs == rest + [last];
      var others := set x | x in rest;
      assert (set x | x in xs) == others + {last};
      Properties.SetSize(rest);
      assert last in others ==> others + {last} == others;
      CountDistinct(rest);
      AppendDistinct(rest, last);
    }
  }
}
