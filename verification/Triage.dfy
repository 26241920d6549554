/** TRIAGE's bounded selection, the deterministic normalization and WARDEN's checks (agents.py).  Money is
    counted in cents; confidence and blast radius are reals. */
module Triage {
  import opened Options
  import opened DurableCore
  import opened Playbooks
  import opened Seqs
  import Sorting = StableSort

  // ---------------------------------------------------------------- ranking

  /** A proposal with its place in the candidate list, which names it, and its priority. */
  datatype Candidate = Candidate(index: nat, action: Action, priority: seq<int>)

  /** Python's `<=` on tuples of numbers. */
  predicate TupleAtMost(a: seq<int>, b: seq<int>) {
    a == [] || (b != [] && (a[0] < b[0] || (a[0] == b[0] && TupleAtMost(a[1..], b[1..]))))
  }

  /** `reverse=True`: higher priorities first, equal ones in their old order. */
  predicate HigherFirst(a: Candidate, b: Candidate) { !TupleAtMost(a.priority, b.priority) }

  function LevelRank(l: Level): int { match l case NoCongestion => 0 case Low => 1 case Medium => 2 case High => 3 }

  /** `device_by_id`: of two devices with one identity the later. */
  function FindDevice(devices: seq<Device>, id: Id): Option<Device> {
    if devices == [] then None
    else if devices[|devices| - 1].deviceId == id then Some(devices[|devices| - 1]) else FindDevice(devices[..|devices| - 1], id)
  }

  function FindReading(readings: seq<Reading>, cell: Id): Option<Reading> {
    if readings == [] then None
    else if readings[|readings| - 1].cellId == cell then Some(readings[|readings| - 1]) else FindReading(readings[..|readings| - 1], cell)
  }

  function TierOneIn(devices: seq<Device>, cell: Id): nat {
    if devices == [] then 0
    else TierOneIn(devices[..|devices| - 1], cell) + (if devices[|devices| - 1].tier == 1 && devices[|devices| - 1].cellId == cell then 1 else 0)
  }

  /** `action_priority`. */
  function PriorityOf(a: Action, devices: seq<Device>, readings: seq<Reading>): seq<int> {
    match FindDevice(devices, a.deviceId)
    case None => [0, 0, 0]
    case Some(d) =>
      var cell := FindReading(readings, d.cellId);
      [(4 - d.tier) * 1000, (if cell.Some? then LevelRank(cell.value.level) else 0) * 100, TierOneIn(devices, d.cellId),
       if cell.Some? then cell.value.confidence else 0]
  }

  function CandidatesOf(actions: seq<Action>, devices: seq<Device>, readings: seq<Reading>): (r: seq<Candidate>)
    ensures |r| == |actions| && forall i :: 0 <= i < |r| ==> r[i].index == i && r[i].action == actions[i]
  {
    if actions == [] then []
    else CandidatesOf(actions[..|actions| - 1], devices, readings)
           + [Candidate(|actions| - 1, actions[|actions| - 1], PriorityOf(actions[|actions| - 1], devices, readings))]
  }

  /** The dictionary `{candidate_id: index}` of an advised order, with the length for unranked candidates. */
  function RankIn(order: seq<nat>, index: nat): nat { LastAt(order, |order|, index).Or(Some(|order|)).value }

  function LastAt(order: seq<nat>, n: nat, index: nat): Option<nat>
    requires n <= |order|
  {
    if n == 0 then None else if order[n - 1] == index then Some(n - 1) else LastAt(order, n - 1, index)
  }

  /** `_validated_planner_result` accepts a ranking of known candidates without repetition. */
  predicate AcceptsRanking(ranked: seq<nat>, candidates: set<nat>) {
    (forall i, j | 0 <= i < j < |ranked| :: ranked[i] != ranked[j]) && (forall x <- ranked :: x in candidates)
  }

  datatype Ranked = Ranked(rank: nat, candidate: Candidate)

  predicate LowerRank(a: Ranked, b: Ranked) { a.rank < b.rank }

  function CandidateOf(r: Ranked): Candidate { r.candidate }

  function RankedBy(cs: seq<Candidate>, order: seq<nat>): (r: seq<Ranked>)
    ensures Map(r, CandidateOf) == cs && forall i :: 0 <= i < |r| ==> r[i].rank == RankIn(order, r[i].candidate.index)
  {
    if cs == [] then [] else RankedBy(cs[..|cs| - 1], order) + [Ranked(RankIn(order, cs[|cs| - 1].index), cs[|cs| - 1])]
  }

  /** `list.sort(key=rank.get(..))`, when an order was advised at all. */
  function Advised(cs: seq<Candidate>, order: seq<nat>): seq<Candidate> {
    if order == [] then cs else Map(Sorting.Sort(RankedBy(cs, order), LowerRank), CandidateOf)
  }

  // ---------------------------------------------------------------- selection

  function DistinctDevices(cs: seq<Candidate>): seq<Id> {
    if cs == [] then []
    else
      var before := DistinctDevices(cs[..|cs| - 1]);
      if cs[|cs| - 1].action.deviceId in before then before else before + [cs[|cs| - 1].action.deviceId]
  }

  /** The first `max` distinct devices in ranked order. */
  function FirstDevices(cs: seq<Candidate>, max: nat): seq<Id> {
    if |DistinctDevices(cs)| <= max then DistinctDevices(cs) else DistinctDevices(cs)[..max]
  }

  predicate HasAction(cs: seq<Candidate>, a: Action) { exists c <- cs :: c.action == a }

  /** All distinct actions for the devices, in ranked order. */
  function DistinctActions(cs: seq<Candidate>, devices: seq<Id>): seq<Candidate> {
    if cs == [] then []
    else
      var before := DistinctActions(cs[..|cs| - 1], devices);
      var c := cs[|cs| - 1];
      if c.action.deviceId in devices && !HasAction(before, c.action) then before + [c] else before
  }

  lemma {:induction false} DistinctGrows(cs: seq<Candidate>, n: nat)
    requires n <= |cs|
    ensures DistinctDevices(cs[..n]) <= DistinctDevices(cs)
    decreases |cs|
  {
    if n < |cs| {
      DistinctGrows(cs[..|cs| - 1], n);
      assert cs[..|cs| - 1][..n] == cs[..n];
    } else {
      assert cs[..n] == cs;
    }
  }

  lemma {:induction false} DistinctIsDistinct(cs: seq<Candidate>)
    ensures AllDistinct(DistinctDevices(cs))
    decreases |cs|
  {
    if cs != [] {
      var rest, x := cs[..|cs| - 1], cs[|cs| - 1].action.deviceId;
      DistinctIsDistinct(rest);
      if x !in DistinctDevices(rest) { AppendDistinct(DistinctDevices(rest), x); }
    }
  }

  lemma {:induction false} DistinctHasAll(cs: seq<Candidate>, i: nat)
    requires i < |cs|
    ensures cs[i].action.deviceId in DistinctDevices(cs)
    decreases |cs|
  {
    if i < |cs| - 1 {
      DistinctHasAll(cs[..|cs| - 1], i);
    }
  }

  /** Whether a device is selected is settled when its first action is reached. */
  lemma SelectedAtOnce(cs: seq<Candidate>, n: nat, max: nat)
    requires n < |cs|
    ensures cs[n].action.deviceId in FirstDevices(cs[..n + 1], max) <==> cs[n].action.deviceId in FirstDevices(cs, max)
  {
    var x := cs[n].action.deviceId;
    var early, all := DistinctDevices(cs[..n + 1]), DistinctDevices(cs);
    DistinctGrows(cs, n + 1);
    DistinctIsDistinct(cs[..n + 1]);
    DistinctIsDistinct(cs);
    DistinctHasAll(cs[..n + 1], n);
    var i :| 0 <= i < |early| && early[i] == x;
    assert all[i] == x;
    assert x in FirstDevices(cs[..n + 1], max) <==> i < max;
    assert x in FirstDevices(cs, max) <==> i < max;
  }

  /** The loop of TRIAGE over the ranked candidates. */
  method SelectBounded(ranked: seq<Candidate>, max: nat) returns (selected: seq<Id>, chosen: seq<Candidate>)
    ensures selected == FirstDevices(ranked, max) && chosen == DistinctActions(ranked, selected)
  {
    selected, chosen := [], [];
    for n := 0 to |ranked|
      invariant selected == FirstDevices(ranked[..n], max)
      invariant chosen == DistinctActions(ranked[..n], FirstDevices(ranked, max))
    {
      var c := ranked[n];
      assert ranked[..n + 1][..n] == ranked[..n];
      SelectedAtOnce(ranked, n, max);
      if c.action.deviceId !in selected {
        if max <= |selected| {
          NotAmongFirst(ranked[..n], c, max);
          continue;
        }
        selected := selected + [c.action.deviceId];
      }
      AmongFirst(ranked[..n], c, max);
      if !HasAction(chosen, c.action) {
        chosen := chosen + [c];
      }
    }
    assert ranked[..|ranked|] == ranked;
  }

  lemma NotAmongFirst(cs: seq<Candidate>, c: Candidate, max: nat)
    requires c.action.deviceId !in FirstDevices(cs, max) && max <= |FirstDevices(cs, max)|
    ensures FirstDevices(cs + [c], max) == FirstDevices(cs, max)
  {
    assert (cs + [c])[..|cs|] == cs;
  }

  lemma AmongFirst(cs: seq<Candidate>, c: Candidate, max: nat)
    requires c.action.deviceId in FirstDevices(cs, max) || |FirstDevices(cs, max)| < max
    ensures FirstDevices(cs + [c], max) ==
            if c.action.deviceId in FirstDevices(cs, max) then FirstDevices(cs, max) else FirstDevices(cs, max) + [c.action.deviceId]
  {
    assert (cs + [c])[..|cs|] == cs;
  }

  // ---------------------------------------------------------------- the plan and its judges

  datatype Guardrails = Guardrails(maxDevices: nat, minimumConfidence: real, maxBlastRadius: real, ceilingCents: nat)

  datatype Plan = Plan(actions: seq<Action>, selected: seq<Id>, costCents: nat, confidence: real, blastRadius: real,
                       approvalRequired: bool)

  function ActionOf(c: Candidate): Action { c.action }

  function ActionsOf(cs: seq<Candidate>): seq<Action> { Map(cs, ActionOf) }

  function CostOf(actions: seq<Action>): nat {
    if actions == [] then 0
    else
      var a := actions[|actions| - 1];
      CostOf(actions[..|actions| - 1]) + (if a.kind.Qos? then (if a.parameters.profile.Guaranteed? then 75 else 20) else 0)
  }

  function BlastRadius(selected: nat, fleet: nat): real {
    var r := selected as real / (if fleet == 0 then 1 else fleet) as real; if r < 1.0 then r else 1.0
  }

  function Clamped(x: real): real { if x < 0.0 then 0.0 else if 1.0 < x then 1.0 else x }

  predicate ApprovalRequired(g: Guardrails, blast: real, confidence: real, cost: nat) {
    g.maxBlastRadius < blast || confidence < g.minimumConfidence || g.ceilingCents < cost
  }

  /** What the advisory models answered; none of it is a plan. */
  datatype Advice = Advice(crewOrder: seq<nat>, crewModifier: real, plannerOrder: seq<nat>, plannerConfidence: real,
                           successfulPrior: bool)

  function ConfidenceOf(a: Advice): real {
    var c := Clamped(a.plannerConfidence + a.crewModifier);
    if a.successfulPrior then (if c + 0.03 < 1.0 then c + 0.03 else 1.0) else c
  }

  /** The ranked proposals: by priority, then as the crew advised. */
  function RankedCandidates(actions: seq<Action>, devices: seq<Device>, readings: seq<Reading>,
                            advice: Advice): seq<Candidate> {
    Advised(Sorting.Sort(CandidatesOf(actions, devices, readings), HigherFirst), advice.crewOrder)
  }

  /** The plan that TRIAGE builds from the proposals. */
  function Triaged(actions: seq<Action>, devices: seq<Device>, readings: seq<Reading>, advice: Advice,
                   g: Guardrails): Plan {
    var ranked := RankedCandidates(actions, devices, readings, advice);
    var selected := FirstDevices(ranked, g.maxDevices);
    var chosen := DistinctActions(ranked, selected);
    PlanOf(ActionsOf(Advised(chosen, advice.plannerOrder)), selected, CostOf(ActionsOf(chosen)), ConfidenceOf(advice), |devices|, g)
  }

  function PlanOf(actions: seq<Action>, selected: seq<Id>, cost: nat, confidence: real, fleet: nat,
                  g: Guardrails): Plan {
    var blast := BlastRadius(|selected|, fleet);
    Plan(actions, selected, cost, confidence, blast, ApprovalRequired(g, blast, confidence, cost))
  }

  /** What the durable context forbids. */
  datatype DurablePolicy = DurablePolicy(unsafeActions: set<Action>, scopeEnforced: bool, allowedDevices: set<Id>,
                                         sliceOperating: bool)

  predicate Permitted(a: Action, p: DurablePolicy) {
    a !in p.unsafeActions && (p.scopeEnforced ==> a.deviceId in p.allowedDevices) && (a.kind.SliceAttach? ==> p.sliceOperating)
  }

  function PermittedActions(actions: seq<Action>, p: DurablePolicy): seq<Action> {
    if actions == [] then []
    else PermittedActions(actions[..|actions| - 1], p) + (if Permitted(actions[|actions| - 1], p) then [actions[|actions| - 1]] else [])
  }

  function DevicesOf(actions: seq<Action>): seq<Id> {
    if actions == [] then []
    else
      var before := DevicesOf(actions[..|actions| - 1]);
      if actions[|actions| - 1].deviceId in before then before else before + [actions[|actions| - 1].deviceId]
  }

  /** `_deterministic_normalization` of a durable plan. */
  function Normalized(plan: Plan, p: DurablePolicy, fleet: nat, g: Guardrails): Plan {
    var actions := PermittedActions(plan.actions, p);
    PlanOf(actions, DevicesOf(actions), CostOf(actions), plan.confidence, fleet, g)
  }

  // ---------------------------------------------------------------- WARDEN

  function DeviceSet(actions: seq<Action>): set<Id> { set a | a in actions :: a.deviceId }

  predicate WithinDeviceLimit(plan: Plan, g: Guardrails) { |DeviceSet(plan.actions)| <= g.maxDevices }

  predicate OnSelectedDevices(plan: Plan) { forall a <- plan.actions :: a.deviceId in plan.selected }

  predicate NoDuplicates(plan: Plan) { |(set a | a in plan.actions)| == |plan.actions| }

  predicate KindAllowed(a: Action) { a.kind.Qos? || a.kind.SliceAttach? || a.kind.Geofence? }

  predicate WellParametrised(a: Action) {
    || (a.kind.Qos? && !a.parameters.profile.NoProfile? && a.parameters.duration != 0)
    || (a.kind.SliceAttach? && a.parameters.sliceId != [])
    || (a.kind.Geofence? && a.parameters.polygonId != [])
  }

  /** Every network check of `_warden`. */
  predicate Approves(plan: Plan, unsafeActions: set<Action>, g: Guardrails) {
    && g.minimumConfidence <= plan.confidence && plan.blastRadius <= g.maxBlastRadius && plan.costCents <= g.ceilingCents
    && plan.actions != [] && WithinDeviceLimit(plan, g) && OnSelectedDevices(plan)
    && (forall a <- plan.actions :: KindAllowed(a)) && NoDuplicates(plan)
    && (forall a <- plan.actions :: a !in unsafeActions && WellParametrised(a))
  }

  /** What the durable context adds to WARDEN's checks: whether the incident is current, what it has spent, its
      ceiling, and the resources of its devices that other incidents hold. */
  datatype DurableState = DurableState(incidentCurrent: bool, spentCents: nat, ceilingCents: nat, conflicts: set<Id>)

  predicate DurablyApproves(plan: Plan, p: DurablePolicy, d: DurableState) {
    && d.incidentCurrent && d.spentCents + plan.costCents <= d.ceilingCents && d.conflicts == {}
    && (p.scopeEnforced ==> forall a <- plan.actions :: a.deviceId in p.allowedDevices)
  }

  /** What is known of the field engineer, when one is needed. */
  datatype Trust = NotRequired | Trusted | IdentityPending | DispatchBlocked

  predicate TrustAllows(t: Trust) { t.NotRequired? || t.Trusted? }

  /** `_warden` of a durable plan. */
  predicate DurablyVerified(plan: Plan, p: DurablePolicy, d: DurableState, g: Guardrails, t: Trust) {
    Approves(plan, p.unsafeActions, g) && DurablyApproves(plan, p, d) && TrustAllows(t)
  }

  datatype Decision = Allow | Block | Escalate

  /** What the durable handler makes of WARDEN's verdict. */
  function DecisionOf(evidenceReady: bool, plan: Plan, verified: bool, t: Trust): Decision {
    if !evidenceReady then Escalate
    else if verified && plan.actions != [] then Allow
    else if plan.approvalRequired || t.IdentityPending? then Escalate
    else Block
  }

  /** The state that the graph nodes rewrite. */
  class Graph {
    var plan: Option<Plan>
    const guardrails: Guardrails

    constructor (g: Guardrails)
      ensures guardrails == g && plan.None?
    {
      guardrails, plan := g, None;
    }

    /** `_triage`, once the playbooks and the advisory models have answered. */
    method TriageNode(actions: seq<Action>, devices: seq<Device>, readings: seq<Reading>, advice: Advice)
      modifies this`plan
      ensures plan == Some(Triaged(actions, devices, readings, advice, guardrails))
    {
      var ranked := RankedCandidates(actions, devices, readings, advice);
      var selected, chosen := SelectBounded(ranked, guardrails.maxDevices);
      var cost := 0;
      for i := 0 to |chosen|
        invariant cost == CostOf(ActionsOf(chosen[..i]))
      {
        assert chosen[..i + 1][..i] == chosen[..i];
        assert ActionsOf(chosen[..i + 1])[..i] == ActionsOf(chosen[..i]);
        var a := chosen[i].action;
        if a.kind.Qos? { cost := cost + (if a.parameters.profile.Guaranteed? then 75 else 20); }
      }
      assert chosen[..|chosen|] == chosen;
      plan := Some(PlanOf(ActionsOf(Advised(chosen, advice.plannerOrder)), selected, cost, ConfidenceOf(advice),
                          |devices|, guardrails));
    }

    /** `_deterministic_normalization`. */
    method NormalizeNode(p: DurablePolicy, fleet: nat)
      requires plan.Some?
      modifies this`plan
      ensures plan == Some(Normalized(old(plan).value, p, fleet, guardrails))
    {
      var actions := plan.value.actions;
      var kept: seq<Action>, devices: seq<Id> := [], [];
      for i := 0 to |actions|
        invariant plan == old(plan) && kept == PermittedActions(actions[..i], p)
      {
        assert actions[..i + 1][..i] == actions[..i];
        if Permitted(actions[i], p) { kept := kept + [actions[i]]; }
      }
      assert actions[..|actions|] == actions;
      for i := 0 to |kept|
        invariant plan == old(plan) && devices == DevicesOf(kept[..i])
      {
        assert kept[..i + 1][..i] == kept[..i];
        if kept[i].deviceId !in devices { devices := devices + [kept[i].deviceId]; }
      }
      assert kept[..|kept|] == kept;
      plan := Some(PlanOf(kept, devices, CostOf(kept), plan.value.confidence, fleet, guardrails));
    }
  }
}
