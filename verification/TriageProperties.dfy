/** For any proposals and any advice: what TRIAGE plans passes WARDEN's structural checks, normalized or not. */
module TriageProperties {
  import opened DurableCore
  import opened Options
  import opened Playbooks
  import opened Triage
  import opened Seqs
  import Properties = PlaybookProperties
  import Sorting = StableSort

  // ---------------------------------------------------------------- advice only permutes

  /** An advised order neither adds nor drops a candidate. */
  lemma AdvicePermutes(cs: seq<Candidate>, order: seq<nat>)
    ensures multiset(Advised(cs, order)) == multiset(cs)
  {
    if order != [] {
      Sorting.SortPermutes(RankedBy(cs, order), LowerRank);
      MapPermutes(Sorting.Sort(RankedBy(cs, order), LowerRank), RankedBy(cs, order), CandidateOf);
    }
  }

  /** And it is followed: what was ranked lower comes first. */
  lemma AdviceIsFollowed(cs: seq<Candidate>, order: seq<nat>, i: nat, j: nat)
    requires order != [] && i < j < |Advised(cs, order)|
    ensures RankIn(order, Advised(cs, order)[i].index) <= RankIn(order, Advised(cs, order)[j].index)
  {
    var rs := RankedBy(cs, order);
    var sorted := Sorting.Sort(rs, LowerRank);
    assert Sorting.WeakOrder(LowerRank);
    Sorting.SortSorts(rs, LowerRank);
    RankIsKept(cs, order, i);
    RankIsKept(cs, order, j);
    assert !LowerRank(sorted[j], sorted[i]);
  }

  lemma {:induction false} RankedWhereAdvised(order: seq<nat>, n: nat, k: nat)
    requires AllDistinct(order) && k < n <= |order|
    ensures LastAt(order, n, order[k]) == Some(k)
    decreases n
  {
    if k < n - 1 { RankedWhereAdvised(order, n - 1, k); }
  }

  /** An accepted ranking of the planner is taken literally, and the confidence that goes with any advice
      stays between 0 and 1. */
  lemma AcceptedRanking(ranked: seq<nat>, candidates: set<nat>, k: nat, advice: Advice)
    requires AcceptsRanking(ranked, candidates) && k < |ranked|
    ensures RankIn(ranked, ranked[k]) == k && ranked[k] in candidates
    ensures forall x <- candidates :: x !in ranked ==> RankIn(ranked, x) == |ranked|
    ensures 0.0 <= ConfidenceOf(advice) <= 1.0
  {
    RankedWhereAdvised(ranked, |ranked|, k);
    forall x | x in candidates && x !in ranked
      ensures RankIn(ranked, x) == |ranked|
    {
      NeverAdvised(ranked, |ranked|, x);
    }
  }

  lemma {:induction false} NeverAdvised(order: seq<nat>, n: nat, x: nat)
    requires n <= |order| && x !in order
    ensures LastAt(order, n, x).None?
  {
    if n > 0 { NeverAdvised(order, n - 1, x); }
  }

  lemma RankIsKept(cs: seq<Candidate>, order: seq<nat>, i: nat)
    requires i < |Sorting.Sort(RankedBy(cs, order), LowerRank)|
    ensures var r := Sorting.Sort(RankedBy(cs, order), LowerRank)[i]; r.rank == RankIn(order, r.candidate.index)
  {
    var r := Sorting.Sort(RankedBy(cs, order), LowerRank)[i];
    Sorting.SortMembers(RankedBy(cs, order), LowerRank, r);
    var k :| 0 <= k < |RankedBy(cs, order)| && RankedBy(cs, order)[k] == r;
  }

  /** The ranked proposals are the proposals. */
  lemma RankedPermutes(actions: seq<Action>, devices: seq<Device>, readings: seq<Reading>, advice: Advice)
    ensures multiset(RankedCandidates(actions, devices, readings, advice)) == multiset(CandidatesOf(actions, devices, readings))
  {
    var cs := CandidatesOf(actions, devices, readings);
    Sorting.SortPermutes(cs, HigherFirst);
    AdvicePermutes(Sorting.Sort(cs, HigherFirst), advice.crewOrder);
  }

  // ---------------------------------------------------------------- the selection

  lemma {:induction false} ActionsAreDistinct(cs: seq<Candidate>, devices: seq<Id>)
    ensures AllDistinct(ActionsOf(DistinctActions(cs, devices)))
    decreases |cs|
  {
    if cs != [] {
      var rest, c := cs[..|cs| - 1], cs[|cs| - 1];
      ActionsAreDistinct(rest, devices);
      var before := DistinctActions(rest, devices);
      if c.action.deviceId in devices && !HasAction(before, c.action) {
        forall i | 0 <= i < |before|
          ensures ActionsOf(before)[i] != c.action
        {
          assert before[i] in before;
        }
        AppendDistinct(ActionsOf(before), c.action);
        assert (before + [c])[..|before|] == before;
        assert ActionsOf(before + [c]) == ActionsOf(before) + [c.action];
      }
    }
  }

  /** An action is chosen exactly when it is proposed for a selected device. */
  lemma {:induction false} ChosenExactly(cs: seq<Candidate>, devices: seq<Id>, a: Action)
    ensures HasAction(DistinctActions(cs, devices), a) <==> HasAction(cs, a) && a.deviceId in devices
    decreases |cs|
  {
    if cs != [] {
      var rest, c := cs[..|cs| - 1], cs[|cs| - 1];
      ChosenExactly(rest, devices, a);
      assert cs == rest + [c];
      assert HasAction(cs, a) <==> HasAction(rest, a) || c.action == a;
      var before := DistinctActions(rest, devices);
      assert HasAction(before + [c], a) <==> HasAction(before, a) || c.action == a by {
        assert (before + [c])[|before|] == c;
        if HasAction(before, a) {
          var x :| x in before && x.action == a;
          assert x in before + [c];
        }
      }
    }
  }

  lemma InActions(cs: seq<Candidate>, a: Action)
    ensures a in ActionsOf(cs) <==> HasAction(cs, a)
  {
    if HasAction(cs, a) {
      var i :| 0 <= i < |cs| && cs[i].action == a;
      assert ActionsOf(cs)[i] == a;
    }
  }

  lemma PlannedExactly(actions: seq<Action>, devices: seq<Device>, readings: seq<Reading>, advice: Advice,
                       g: Guardrails, a: Action)
    ensures var plan := Triaged(actions, devices, readings, advice, g);
            a in plan.actions <==> a in actions && a.deviceId in plan.selected
  {
    var cs := CandidatesOf(actions, devices, readings);
    var ranked := RankedCandidates(actions, devices, readings, advice);
    var selected := FirstDevices(ranked, g.maxDevices);
    var chosen := DistinctActions(ranked, selected);
    RankedPermutes(actions, devices, readings, advice);
    AdvicePermutes(chosen, advice.plannerOrder);
    SameActions(Advised(chosen, advice.plannerOrder), chosen, a);
    InActions(Advised(chosen, advice.plannerOrder), a);
    ChosenExactly(ranked, selected, a);
    SameActions(ranked, cs, a);
    ProposedActions(actions, devices, readings, a);
  }

  lemma SameActions(xs: seq<Candidate>, ys: seq<Candidate>, a: Action)
    requires multiset(xs) == multiset(ys)
    ensures HasAction(xs, a) <==> HasAction(ys, a)
  {
    forall c
      ensures c in xs <==> c in ys
    {
      assert c in multiset(xs) <==> c in multiset(ys);
    }
  }

  lemma ProposedActions(actions: seq<Action>, devices: seq<Device>, readings: seq<Reading>, a: Action)
    ensures HasAction(CandidatesOf(actions, devices, readings), a) <==> a in actions
  {
    if a in actions {
      var i :| 0 <= i < |actions| && actions[i] == a;
      assert CandidatesOf(actions, devices, readings)[i].action == a;
    }
  }

  lemma PlannedDistinct(actions: seq<Action>, devices: seq<Device>, readings: seq<Reading>, advice: Advice,
                        g: Guardrails)
    ensures AllDistinct(Triaged(actions, devices, readings, advice, g).actions)
  {
    var ranked := RankedCandidates(actions, devices, readings, advice);
    var chosen := DistinctActions(ranked, FirstDevices(ranked, g.maxDevices));
    ActionsAreDistinct(ranked, FirstDevices(ranked, g.maxDevices));
    AdvicePermutes(chosen, advice.plannerOrder);
    MapPermutes(chosen, Advised(chosen, advice.plannerOrder), ActionOf);
    PermutedDistinct(ActionsOf(chosen), ActionsOf(Advised(chosen, advice.plannerOrder)));
  }

  // ---------------------------------------------------------------- WARDEN accepts the structure

  lemma SubsetSize<T>(a: set<T>, b: set<T>)
    requires a <= b
    ensures |a| <= |b|
  {
    assert b == a + (b - a);
  }

  lemma {:induction false} SetSize<T>(xs: seq<T>)
    ensures |(set x | x in xs)| <= |xs|
  {
    if xs != [] {
      var rest, last := xs[..|xs| - 1], xs[|xs| - 1];
      SetSize(rest);
      assert xs == rest + [last];
      assert (set x | x in xs) == (set x | x in rest) + {last};
    }
  }

  /** A plan whose actions are on a bounded list of devices and all different. */
  lemma BoundedPasses(plan: Plan, devices: seq<Id>, g: Guardrails)
    requires |devices| <= g.maxDevices && (forall a <- plan.actions :: a.deviceId in devices) && AllDistinct(plan.actions)
    ensures WithinDeviceLimit(plan, g) && NoDuplicates(plan)
  {
    SubsetSize(DeviceSet(plan.actions), set x | x in devices);
    SetSize(devices);
    DistinctCount(plan.actions);
  }

  /** Whatever was proposed and advised, TRIAGE's plan stays within the device limit, acts on selected
      devices only, and repeats no action. */
  lemma TriagePasses(actions: seq<Action>, devices: seq<Device>, readings: seq<Reading>, advice: Advice, g: Guardrails)
    ensures var plan := Triaged(actions, devices, readings, advice, g);
            WithinDeviceLimit(plan, g) && OnSelectedDevices(plan) && NoDuplicates(plan) && |plan.selected| <= g.maxDevices
  {
    var plan := Triaged(actions, devices, readings, advice, g);
    forall a | a in plan.actions
      ensures a.deviceId in plan.selected
    {
      PlannedExactly(actions, devices, readings, advice, g, a);
    }
    PlannedDistinct(actions, devices, readings, advice, g);
    BoundedPasses(plan, plan.selected, g);
  }

  lemma {:induction false} PermittedKeeps(actions: seq<Action>, p: DurablePolicy)
    requires AllDistinct(actions)
    ensures AllDistinct(PermittedActions(actions, p))
    ensures forall a <- PermittedActions(actions, p) :: a in actions && Permitted(a, p)
    decreases |actions|
  {
    if actions != [] {
      var rest, last := actions[..|actions| - 1], actions[|actions| - 1];
      PermittedKeeps(rest, p);
      assert actions == rest + [last] && last !in rest;
      if Permitted(last, p) { AppendDistinct(PermittedActions(rest, p), last); }
    }
  }

  lemma {:induction false} DevicesOfAll(actions: seq<Action>)
    ensures forall a <- actions :: a.deviceId in DevicesOf(actions)
    decreases |actions|
  {
    if actions != [] {
      DevicesOfAll(actions[..|actions| - 1]);
      assert actions == actions[..|actions| - 1] + [actions[|actions| - 1]];
    }
  }

  /** And so does the normalized plan, which keeps only permitted actions. */
  lemma NormalizedPasses(actions: seq<Action>, devices: seq<Device>, readings: seq<Reading>, advice: Advice,
                         g: Guardrails, p: DurablePolicy)
    ensures var plan := Normalized(Triaged(actions, devices, readings, advice, g), p, |devices|, g);
            && WithinDeviceLimit(plan, g) && OnSelectedDevices(plan) && NoDuplicates(plan)
            && forall a <- plan.actions :: Permitted(a, p)
  {
    var plan := Triaged(actions, devices, readings, advice, g);
    var kept := PermittedActions(plan.actions, p);
    TriagePasses(actions, devices, readings, advice, g);
    PlannedDistinct(actions, devices, readings, advice, g);
    PermittedKeeps(plan.actions, p);
    DevicesOfAll(kept);
    BoundedPasses(Normalized(plan, p, |devices|, g), plan.selected, g);
  }

  /** The planner's advice only reorders, and it is followed: devices, cost and the actions themselves do not depend
      on it, and the actions stand in the order that it ranks them. */
  lemma PlannerOnlyReorders(actions: seq<Action>, devices: seq<Device>, readings: seq<Reading>, advice: Advice,
                            order: seq<nat>, g: Guardrails)
    ensures var a, b := Triaged(actions, devices, readings, advice, g), Triaged(actions, devices, readings,
                                                                                advice.(plannerOrder := order), g);
            b == a.(actions := b.actions) && multiset(b.actions) == multiset(a.actions)
    ensures var ranked := RankedCandidates(actions, devices, readings, advice);
            var planned := Advised(DistinctActions(ranked, FirstDevices(ranked, g.maxDevices)), order);
            && Triaged(actions, devices, readings, advice.(plannerOrder := order), g).actions == ActionsOf(planned)
            && (order != [] ==> forall i, j :: 0 <= i < j < |planned| ==> RankIn(order, planned[i].index) <= RankIn(order, planned[j].index))
  {
    var ranked := RankedCandidates(actions, devices, readings, advice);
    var chosen := DistinctActions(ranked, FirstDevices(ranked, g.maxDevices));
    AdvicePermutes(chosen, advice.plannerOrder);
    AdvicePermutes(chosen, order);
    MapPermutes(Advised(chosen, advice.plannerOrder), Advised(chosen, order), ActionOf);
    if order != [] {
      var planned := Advised(chosen, order);
      forall i, j | 0 <= i < j < |planned|
        ensures RankIn(order, planned[i].index) <= RankIn(order, planned[j].index)
      {
        AdviceIsFollowed(chosen, order, i, j);
      }
    }
  }

  // ---------------------------------------------------------------- from the playbooks to the verdict

  /** What a deployment configures: a rollback time, a slice and a polygon. */
  predicate Configured(c: Config) { c.rollbackSeconds != 0 && c.emergencySlice != [] && c.stormPolygon != [] }

  lemma EvaluationIsSafe(r: seq<Pick>, o: Observation, devices: seq<Device>, c: Config, p: Pick)
    requires Configured(c) && IsEvaluation(r, Candidates(o, devices, c)) && p in r
    ensures KindAllowed(p.action) && WellParametrised(p.action)
  {
    assert Best(p, Candidates(o, devices, c));
    Properties.CandidatesAreProposed(o, devices, c, p);
    var d :| d in devices && Properties.Proposed(o, devices, c, d, p);
    ProposalIsSafe(o, devices, c, d, p);
  }

  lemma ProposalIsSafe(o: Observation, devices: seq<Device>, c: Config, d: Device, p: Pick)
    requires Configured(c) && Properties.Proposed(o, devices, c, d, p)
    ensures KindAllowed(p.action) && WellParametrised(p.action)
  {}

  function ActionOfPick(p: Pick): Action { p.action }

  /** The actions planned for proposals of the playbooks are of an allowed kind and have their parameters. */
  lemma PlannedAreSafe(r: seq<Pick>, o: Observation, devices: seq<Device>, c: Config, advice: Advice, g: Guardrails,
                       a: Action)
    requires Configured(c) && IsEvaluation(r, Candidates(o, devices, c))
    requires a in Triaged(Map(r, ActionOfPick), devices, o.readings, advice, g).actions
    ensures KindAllowed(a) && WellParametrised(a)
  {
    var actions := Map(r, ActionOfPick);
    PlannedExactly(actions, devices, o.readings, advice, g, a);
    var i :| 0 <= i < |actions| && actions[i] == a;
    EvaluationIsSafe(r, o, devices, c, r[i]);
  }

  /** Outside durable planning WARDEN's verdict on proposals of the playbooks comes down to TRIAGE's own mark: it
      approves a plan exactly when the plan has actions, none is unsafe to the client, and no human approval is
      required. */
  lemma WardenAgreesWithTriage(r: seq<Pick>, o: Observation, devices: seq<Device>, c: Config, advice: Advice,
                               g: Guardrails, unsafeActions: set<Action>)
    requires Configured(c) && IsEvaluation(r, Candidates(o, devices, c))
    ensures var plan := Triaged(Map(r, ActionOfPick), devices, o.readings, advice, g);
            Approves(plan, unsafeActions, g) <==>
            plan.actions != [] && (forall a <- plan.actions :: a !in unsafeActions) && !plan.approvalRequired
  {
    var actions := Map(r, ActionOfPick);
    var plan := Triaged(actions, devices, o.readings, advice, g);
    TriagePasses(actions, devices, o.readings, advice, g);
    forall a | a in plan.actions
      ensures KindAllowed(a) && WellParametrised(a)
    {
      PlannedAreSafe(r, o, devices, c, advice, g, a);
    }
  }

  /** What is left to decide about a plan whose structure and actions are in order. */
  lemma StructureInOrder(plan: Plan, p: DurablePolicy, d: DurableState, g: Guardrails, t: Trust)
    requires WithinDeviceLimit(plan, g) && OnSelectedDevices(plan) && NoDuplicates(plan)
    requires forall a <- plan.actions :: KindAllowed(a) && WellParametrised(a) && Permitted(a, p)
    requires plan.approvalRequired == ApprovalRequired(g, plan.blastRadius, plan.confidence, plan.costCents)
    ensures DurablyVerified(plan, p, d, g, t) <==>
            && plan.actions != [] && !plan.approvalRequired && TrustAllows(t)
            && d.incidentCurrent && d.spentCents + plan.costCents <= d.ceilingCents && d.conflicts == {}
  {}

  lemma NormalizedMark(plan: Plan, p: DurablePolicy, fleet: nat, g: Guardrails)
    ensures var n := Normalized(plan, p, fleet, g);
            && n.actions == PermittedActions(plan.actions, p)
            && n.approvalRequired == ApprovalRequired(g, n.blastRadius, n.confidence, n.costCents)
  {}

  /** On the durable path WARDEN judges the normalized plan.  Action safety, mutation scope, kinds, parameters,
      limits and uniqueness follow from the normalization, so what is left to decide is whether there are actions,
      whether a human is needed, whether the context is current, the money already spent, and foreign leases. */
  lemma DurableWardenDecides(r: seq<Pick>, o: Observation, devices: seq<Device>, c: Config, advice: Advice,
                             g: Guardrails,
                             p: DurablePolicy, d: DurableState, t: Trust)
    requires Configured(c) && IsEvaluation(r, Candidates(o, devices, c))
    ensures var plan := Normalized(Triaged(Map(r, ActionOfPick), devices, o.readings, advice, g), p, |devices|, g);
            DurablyVerified(plan, p, d, g, t) <==>
            && plan.actions != [] && !plan.approvalRequired && TrustAllows(t)
            && d.incidentCurrent && d.spentCents + plan.costCents <= d.ceilingCents && d.conflicts == {}
  {
    var actions := Map(r, ActionOfPick);
    var planned := Triaged(actions, devices, o.readings, advice, g);
    var plan := Normalized(planned, p, |devices|, g);
    NormalizedPasses(actions, devices, o.readings, advice, g, p);
    PlannedDistinct(actions, devices, o.readings, advice, g);
    PermittedKeeps(planned.actions, p);
    forall a | a in plan.actions
      ensures KindAllowed(a) && WellParametrised(a) && Permitted(a, p)
    {
      PlannedAreSafe(r, o, devices, c, advice, g, a);
    }
    NormalizedMark(planned, p, |devices|, g);
    StructureInOrder(plan, p, d, g, t);
  }

  /** The decision on the incident, in all cases: a plan is authorised, blocked or handed to a human exactly so. */
  lemma DurableDecision(r: seq<Pick>, o: Observation, devices: seq<Device>, c: Config, advice: Advice, g: Guardrails,
                        p: DurablePolicy, d: DurableState, t: Trust, evidenceReady: bool)
    requires Configured(c) && IsEvaluation(r, Candidates(o, devices, c))
    ensures var plan := Normalized(Triaged(Map(r, ActionOfPick), devices, o.readings, advice, g), p, |devices|, g);
            var decision := DecisionOf(evidenceReady, plan, DurablyVerified(plan, p, d, g, t), t);
            var fits := d.incidentCurrent && d.spentCents + plan.costCents <= d.ceilingCents && d.conflicts == {};
            && (decision.Allow? <==> evidenceReady && plan.actions != [] && !plan.approvalRequired && fits && TrustAllows(t))
            && (decision.Escalate? <==> !evidenceReady || plan.approvalRequired || t.IdentityPending?)
            && (decision.Block? <==>
                evidenceReady && !plan.approvalRequired && (t.DispatchBlocked? || (TrustAllows(t) && (plan.actions == [] || !fits))))
  {
    DurableWardenDecides(r, o, devices, c, advice, g, p, d, t);
  }
}
