/** What has to hold of the stored values before a provider is told to act, said on their fields
    (`_eligibility_reason` and `_mode_reason` of durable_execution.py). */
module CallConditions {
  import opened DurableCore
  import opened IncidentRepository
  import opened Execution

  /** No stored command of the incident belongs to a later plan, and those of earlier plans for the same resource have
      ended. */
  ghost predicate Foremost(w: World, a: ActionCommand) {
    forall id <- w.actions.byId :: var b := w.actions.byId[id];
      b.incidentId == a.incidentId ==>
        && b.planVersion <= a.planVersion
        && (b.commandId != a.commandId && b.resourceKey == a.resourceKey && b.planVersion != a.planVersion ==>
            b.state.Success? || b.state.Failed? || b.state.RolledBack?)
  }

  /** No record is later than record `i`, and every one before it is earlier. */
  ghost predicate LatestAt(rs: seq<TrustRecord>, i: int) {
    && 0 <= i < |rs|
    && (forall j :: 0 <= j < |rs| ==> rs[j].verifiedAt <= rs[i].verifiedAt)
    && (forall j :: 0 <= j < i ==> rs[j].verifiedAt < rs[i].verifiedAt)
  }

  predicate Clean(r: TrustRecord, ttl: int, now: int) {
    r.verifiedAt <= now <= r.verifiedAt + ttl && r.numberVerified && r.noRecentSimSwap
  }

  /** The latest trust record of the incident is in its time and clean. */
  ghost predicate Trusted(w: World, incident: Id, ttl: int, now: int) {
    && incident in w.trust
    && exists i :: LatestAt(w.trust[incident], i) && Clean(w.trust[incident][i], ttl, now)
  }

  /** A live incident under this very plan, allowed by WARDEN; a fresh request within every limit, trusted where trust
      is asked for, and not overtaken by another plan. */
  ghost predicate InOrder(w: World, a: ActionCommand, s: Settings, now: int) {
    && a.incidentId in w.incidents.items
    && var i, p := w.incidents.items[a.incidentId], a.pre;
    && (i.state.Approved? || i.state.Mitigating? || i.state.Verifying?) && i.warden == Allow && i.planVersion == a.planVersion
    && a.requestedAt <= now <= a.requestedAt + s.rollbackSeconds
    && p.confidence.Some? && p.confidence.value >= s.minimumConfidence
    && p.blastRadius.Some? && p.blastRadius.value <= s.maxBlastRadius
    && p.selectedDeviceCount.Some? && 0 <= p.selectedDeviceCount.value <= s.maxDevices
    && p.wardenAllow && (p.trustedDispatchRequired ==> Trusted(w, a.incidentId, s.trustTtl, now))
    && Foremost(w, a)
  }

  /** Fixture mode, or live writes with the write loop switched on and a live adapter. */
  predicate Writable(s: Settings) { s.mode == Fixture || (s.mode == LiveWrite && s.liveWriteLoop && s.adapterLive) }

  /** A guaranteed QoD session is charged 75 cents, any other 20, everything else nothing. */
  predicate Priced(a: ActionCommand, cents: nat) {
    match a.commandType
    case QodPlan => cents == if a.guaranteedProfile then 75 else 20
    case _ => cents == 0
  }

  predicate Charges(ledger: seq<Charge>, a: ActionCommand) {
    exists x <- ledger :: x.commandId == a.commandId && x.incidentId == a.incidentId
  }

  /** It has been charged for already, or the charge stays below the ceiling of its incident. */
  ghost predicate Affordable(ledger: seq<Charge>, a: ActionCommand, s: Settings) {
    Charges(ledger, a) || exists cents :: Priced(a, cents) && Total(ledger, a.incidentId) + cents <= s.ceilingCents
  }

  /** The lease of the incident on the resource is live and has an end. */
  ghost predicate Leased(w: World, a: ActionCommand, now: int) {
    && a.resourceKey in w.leases
    && var l := w.leases[a.resourceKey];
       l.owned && l.owner == a.incidentId && l.expiresAt.Some? && now < l.expiresAt.value
  }

  // ---------------------------------------------------------------- they are what the executor checks

  lemma {:induction false} LatestIsLatest(rs: seq<TrustRecord>)
    requires rs != []
    ensures exists i :: LatestAt(rs, i) && rs[i] == Latest(rs)
  {
    var n := |rs| - 1;
    if n == 0 {
      assert LatestAt(rs, 0);
    } else {
      LatestIsLatest(rs[..n]);
      var i :| LatestAt(rs[..n], i) && rs[..n][i] == Latest(rs[..n]);
      assert rs[i] == Latest(rs[..n]) && forall j :: 0 <= j < n ==> rs[..n][j] == rs[j];
      var k := if rs[i].verifiedAt < rs[n].verifiedAt then n else i;
      assert LatestAt(rs, k) && rs[k] == Latest(rs);
    }
  }

  lemma OneLatest(rs: seq<TrustRecord>, i: int, j: int)
    requires LatestAt(rs, i) && LatestAt(rs, j)
    ensures i == j
  {
    assert rs[i].verifiedAt == rs[j].verifiedAt;
  }

  lemma TrustExactly(w: World, a: ActionCommand, s: Settings, now: int)
    ensures TrustAllows(w, a, s, now) <==> (a.pre.trustedDispatchRequired ==> Trusted(w, a.incidentId, s.trustTtl, now))
  {
    if a.incidentId in w.trust && w.trust[a.incidentId] != [] {
      var rs := w.trust[a.incidentId];
      LatestIsLatest(rs);
      var i :| LatestAt(rs, i) && rs[i] == Latest(rs);
      forall j | LatestAt(rs, j)
        ensures j == i
      {
        OneLatest(rs, i, j);
      }
    }
  }

  lemma ModeExactly(s: Settings)
    ensures ModeAllows(s) <==> Writable(s)
  {}

  lemma ForemostExactly(w: World, a: ActionCommand)
    ensures NoNewerPlan(w, a) && OlderPlansSettled(w, a) <==> Foremost(w, a)
  {}

  lemma AffordableExactly(ledger: seq<Charge>, a: ActionCommand, s: Settings)
    ensures Priced(a, Cost(a))
    ensures CostRecorded(ledger, a) || Total(ledger, a.incidentId) + Cost(a) <= s.ceilingCents <==> Affordable(ledger, a, s)
  {
    assert Priced(a, Cost(a));
  }

  /** The executor's eligibility check is exactly this. */
  lemma EligibleExactly(w: World, a: ActionCommand, s: Settings, now: int)
    requires a.incidentId in w.incidents.items
    ensures Eligible(w, a, s, now) <==> InOrder(w, a, s, now) && Affordable(w.ledger, a, s)
  {
    TrustExactly(w, a, s, now);
    ForemostExactly(w, a);
    AffordableExactly(w.ledger, a, s);
  }
}
