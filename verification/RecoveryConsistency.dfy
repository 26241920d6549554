/** The authoritative recovery record of an incident and its projection into the incident
    (recovery_consistency.py, InMemoryRecoveryRepository). */
module RecoveryConsistency {
  import opened Options
  import opened DurableCore
  import opened IncidentRepository

  datatype Recovery = Recovery(state: RecoveryState, version: nat)

  /** _FORWARD. */
  predicate Forward(from: RecoveryState, to: RecoveryState) {
    match from
    case Pending => !to.Pending?
    case Releasing => to.VerifyingRelease? || to.Partial? || to.Failed? || to.Complete?
    case VerifyingRelease => to.Partial? || to.Failed? || to.Complete?
    case Partial => to.Complete?
    case _ => false
  }

  /** Which states may follow which, told from where they lead: a recovery completes from everything but a failure, it
      fails or stays partial only while it has not been partial yet, and it never goes back. */
  predicate LeadsTo(from: RecoveryState, to: RecoveryState) {
    match to
    case Complete => from != RecoveryState.Failed && from != RecoveryState.Complete
    case Failed => from == RecoveryState.Pending || from == Releasing || from == VerifyingRelease
    case Partial => from == RecoveryState.Pending || from == Releasing || from == VerifyingRelease
    case VerifyingRelease => from == RecoveryState.Pending || from == Releasing
    case Releasing => from == RecoveryState.Pending
    case Pending => false
  }

  lemma ForwardExactly(from: RecoveryState, to: RecoveryState)
    ensures Forward(from, to) && !Final(from) <==> LeadsTo(from, to)
  {}

  predicate Final(s: RecoveryState) { s.Failed? || s.Complete? }

  /** `_valid_forward`; every target here is one of the known states. */
  predicate ValidForward(current: Option<RecoveryState>, target: RecoveryState) {
    current.None? || current.value == target || (!Final(current.value) && Forward(current.value, target))
  }

  function Height(s: RecoveryState): nat {
    match s case Pending => 0 case Releasing => 1 case VerifyingRelease => 2 case Partial => 3 case _ => 4
  }

  // ---------------------------------------------------------------- repository

  function VersionOf(r: Option<Recovery>): int { if r.Some? then r.value.version else -1 }

  function StateOf(r: Option<Recovery>): Option<RecoveryState> { if r.Some? then Some(r.value.state) else None }

  /** `save`: `None` is VersionConflict. */
  function Save(current: Option<Recovery>, state: RecoveryState, expected: int): Option<Recovery> {
    if current.None? then (if expected == -1 || expected == 0 then Some(Recovery(state, 0)) else None)
    else if expected != current.value.version then None
    else if current.value.state == state then current
    else Some(Recovery(state, current.value.version + 1))
  }

  /** The record after `save_recovery_and_repair`, or `None` when it raises. */
  function SaveForward(current: Option<Recovery>, target: RecoveryState): Option<Recovery> {
    if !ValidForward(StateOf(current), target) then None
    else if StateOf(current) == Some(target) then current
    else Save(current, target, VersionOf(current))
  }

  function Lookup(items: map<Id, Recovery>, incident: Id): Option<Recovery> {
    if incident in items then Some(items[incident]) else None
  }

  /** The incident after its projected recovery field was repaired. */
  function Repaired(i: Incident, authoritative: RecoveryState, now: int): Incident {
    if i.recovery == authoritative then i
    else i.(recovery := authoritative, version := i.version + 1, updatedAt := if i.updatedAt < now then now else i.updatedAt)
  }

  /** What other writers make of the incidents: each write is a new version of a known incident. */
  function Overwritten(items: map<Id, Incident>, writes: seq<Incident>): map<Id, Incident> {
    if writes == [] then items
    else
      var before, i := Overwritten(items, writes[..|writes| - 1]), writes[|writes| - 1];
      if i.incidentId in before then before[i.incidentId := i.(version := before[i.incidentId].version + 1)] else before
  }

  function AfterRounds(items: map<Id, Incident>, others: nat -> seq<Incident>, n: nat): map<Id, Incident> {
    if n == 0 then items else Overwritten(AfterRounds(items, others, n - 1), others(n - 1))
  }

  /** A record that was written has a new version. */
  lemma {:induction false} OverwrittenGrows(items: map<Id, Incident>, writes: seq<Incident>, id: Id)
    requires id in items ==> items[id].incidentId == id
    ensures var after := Overwritten(items, writes);
            && (id in after <==> id in items)
            && (id in items ==> after[id].incidentId == id && items[id].version <= after[id].version
                                && (after[id].version == items[id].version ==> after[id] == items[id]))
  {
    if writes != [] { OverwrittenGrows(items, writes[..|writes| - 1], id); }
  }

  lemma {:induction false} NobodyWrites(items: map<Id, Incident>, others: nat -> seq<Incident>, n: nat)
    requires forall k :: others(k) == []
    ensures AfterRounds(items, others, n) == items
  {
    if n > 0 { NobodyWrites(items, others, n - 1); }
  }

  class RecoveryService {
    const incidents: IncidentRepository
    var items: map<Id, Recovery>

    constructor (incidents: IncidentRepository)
      ensures items == map[] && this.incidents == incidents
    {
      this.incidents := incidents;
      items := map[];
    }

    /** Other writers at work. */
    method Meanwhile(writes: seq<Incident>)
      modifies incidents`items
      ensures incidents.items == Overwritten(old(incidents.items), writes)
    {
      for n := 0 to |writes|
        invariant incidents.items == Overwritten(old(incidents.items), writes[..n])
      {
        assert writes[..n + 1][..n] == writes[..n];
        var i := writes[n];
        if i.incidentId in incidents.items {
          incidents.items := incidents.items[i.incidentId := i.(version := incidents.items[i.incidentId].version + 1)];
        }
      }
      assert writes[..|writes|] == writes;
    }

    /** `repair_incident_recovery_projection`; `others(n)` is what other writers write between the read and the write
        of attempt `n`.  Afterwards the incident shows the authoritative state and nothing of theirs is lost, or it is
        unknown, or others wrote it during every attempt. */
    method Repair(incident: Id, retries: nat, now: int, others: nat -> seq<Incident>)
      returns (ok: bool, ghost rounds: nat)
      requires incident in incidents.items ==> incidents.items[incident].incidentId == incident
      modifies incidents`items
      ensures rounds <= if retries == 0 then 1 else retries
      ensures var theirs := AfterRounds(old(incidents.items), others, rounds);
              && (incident in theirs <==> incident in old(incidents.items))
              && incidents.items == if incident in items && incident in theirs && ok
                                    then theirs[incident := Repaired(theirs[incident], items[incident].state, now)] else theirs
      ensures ok && incident in items ==> incident in incidents.items && incidents.items[incident].recovery == items[incident].state
      ensures incident !in items ==> ok && rounds == 0
      ensures !ok && incident in old(incidents.items) ==>
                && rounds == (if retries == 0 then 1 else retries) && incident in incidents.items
                && old(incidents.items)[incident].version + rounds <= incidents.items[incident].version
    {
      rounds := 0;
      if incident !in items { return true, rounds; }
      var authoritative := items[incident].state;
      for n := 0 to if retries == 0 then 1 else retries
        invariant rounds == n && incidents.items == AfterRounds(old(incidents.items), others, n)
        invariant 0 < n ==> incident in old(incidents.items)
        invariant incident in incidents.items <==> incident in old(incidents.items)
        invariant incident in incidents.items ==>
                    && incidents.items[incident].incidentId == incident
                    && old(incidents.items)[incident].version + n <= incidents.items[incident].version
      {
        if incident !in incidents.items { return false, rounds; }
        var i := incidents.items[incident];
        if i.recovery == authoritative { return true, rounds; }
        var updated := i.(recovery := authoritative, updatedAt := if i.updatedAt < now then now else i.updatedAt);
        OverwrittenGrows(incidents.items, others(n), incident);
        Meanwhile(others(n));
        rounds := rounds + 1;
        var r := incidents.Update(updated, i.version);
        if r.Done? { return true, rounds; }
      }
      return false, rounds;
    }

    /** The repair inside one process, where no other writer comes between its read and its write. */
    method RepairAlone(incident: Id, retries: nat, now: int)
      requires incident in incidents.items ==> incidents.items[incident].incidentId == incident
      modifies incidents`items
      ensures incident !in items || incident !in old(incidents.items) ==> incidents.items == old(incidents.items)
      ensures incident in items && incident in old(incidents.items) ==>
                incidents.items == old(incidents.items)[incident := Repaired(old(incidents.items)[incident],
                                                                             items[incident].state, now)]
    {
      var nobody: nat -> seq<Incident> := n => [];
      ghost var was := incidents.items;
      var ok, rounds := Repair(incident, retries, now, nobody);
      NobodyWrites(was, nobody, rounds);
    }

    /** `save_recovery_and_repair`.  Whatever the record did before, afterwards the incident shows its state. */
    method SaveAndRepair(incident: Id, target: RecoveryState, retries: nat, now: int) returns (stored: Option<Recovery>)
      requires incident in incidents.items ==> incidents.items[incident].incidentId == incident
      modifies this`items, incidents`items
      ensures stored == old(SaveForward(Lookup(items, incident), target))
      ensures stored.Some? <==>
                incident in old(items) ==> old(items)[incident].state == target || LeadsTo(old(items)[incident].state, target)
      ensures stored.Some? ==>
                stored.value.version == if incident !in old(items) then 0
                                        else old(items)[incident].version + if old(items)[incident].state == target then 0 else 1
      ensures stored.None? ==> items == old(items) && incidents.items == old(incidents.items)
      ensures stored.Some? ==> items == old(items)[incident := stored.value] && stored.value.state == target
      ensures stored.Some? && incident !in old(incidents.items) ==> incidents.items == old(incidents.items)
      ensures stored.Some? && incident in old(incidents.items) ==>
                && incidents.items == old(incidents.items)[incident := Repaired(old(incidents.items)[incident],
                                                                                stored.value.state, now)]
                && incidents.items[incident].recovery == items[incident].state
    {
      var current := Lookup(items, incident);
      if current.Some? { ForwardExactly(current.value.state, target); }
      if !ValidForward(StateOf(current), target) { return None; }
      if StateOf(current) == Some(target) {
        stored := current;
      } else {
        stored := Save(current, target, VersionOf(current));
      }
      items := items[incident := stored.value];
      RepairAlone(incident, retries, now);
    }
  }

  // ---------------------------------------------------------------- any interleaving of writers

  /** Writers race on one record: each reads it, and some time later tries its compare-and-swap. */
  datatype System = System(current: Option<Recovery>, seen: map<nat, Option<Recovery>>, history: seq<RecoveryState>)

  datatype Op = Read(writer: nat) | Write(writer: nat, target: RecoveryState)

  function Step(s: System, op: Op): System {
    match op
    case Read(w) => s.(seen := s.seen[w := s.current])
    case Write(w, target) =>
      if w !in s.seen || !ValidForward(StateOf(s.seen[w]), target) || StateOf(s.seen[w]) == Some(target) then s
      else match Save(s.current, target, VersionOf(s.seen[w]))
        case None => s
        case Some(r) => s.(current := Some(r), history := if Some(r) == s.current then s.history else s.history + [r.state])
  }

  ghost predicate Run(states: seq<System>, ops: seq<Op>) {
    && |states| == |ops| + 1 && states[0] == System(None, map[], [])
    && forall i :: 0 <= i < |ops| ==> states[i + 1] == Step(states[i], ops[i])
  }

  /** The states a record went through, oldest first, each a forward step from the one before. */
  ghost predicate ForwardChain(h: seq<RecoveryState>) {
    forall i, j :: 0 <= i < j < |h| && j == i + 1 ==> LeadsTo(h[i], h[j])
  }

  ghost predicate Inv(s: System) {
    && (s.current.None? <==> s.history == [])
    && (s.current.Some? ==> s.history[|s.history| - 1] == s.current.value.state)
    && ForwardChain(s.history)
    && forall w <- s.seen :: s.seen[w].Some? ==>
         s.current.Some? && s.seen[w].value.version <= s.current.value.version
         && (s.seen[w].value.version == s.current.value.version ==> s.seen[w] == s.current)
  }

  lemma StepKeepsInv(s: System, op: Op)
    requires Inv(s)
    ensures Inv(Step(s, op))
    ensures s.history <= Step(s, op).history
  {
    if op.Write? && op.writer in s.seen {
      var r := Save(s.current, op.target, VersionOf(s.seen[op.writer]));
      if ValidForward(StateOf(s.seen[op.writer]), op.target) && r.Some? && Some(r.value) != s.current {
        if s.current.Some? { ForwardExactly(s.current.value.state, op.target); }
        ChainGrows(s, r.value);
      }
    }
  }

  /** A record that differs from the current one is a step forward from it. */
  lemma ChainGrows(s: System, r: Recovery)
    requires Inv(s) && Some(r) != s.current
    requires s.current.Some? ==> LeadsTo(s.current.value.state, r.state)
    ensures ForwardChain(s.history + [r.state])
  {}

  lemma {:induction false} RunInv(states: seq<System>, ops: seq<Op>, m: nat, n: nat)
    requires Run(states, ops) && m <= n <= |ops|
    ensures Inv(states[m]) && Inv(states[n]) && states[m].history <= states[n].history
    decreases n
  {
    if m < n {
      RunInv(states, ops, m, n - 1);
      StepKeepsInv(states[n - 1], ops[n - 1]);
    } else if 0 < n {
      RunInv(states, ops, n - 1, n - 1);
      StepKeepsInv(states[n - 1], ops[n - 1]);
    }
  }

  lemma {:induction false} ChainClimbs(h: seq<RecoveryState>)
    requires ForwardChain(h) && h != []
    ensures |h| - 1 <= Height(h[|h| - 1])
  {
    if |h| > 1 {
      ChainClimbs(h[..|h| - 1]);
      assert LeadsTo(h[|h| - 2], h[|h| - 1]);
    }
  }

  /** Under any interleaving of compare-and-swap writers the record only moves forward, at most four
      times after its creation, and FAILED and COMPLETE are permanent. */
  lemma RecoveryOnlyForward(states: seq<System>, ops: seq<Op>, m: nat, n: nat)
    requires Run(states, ops) && m <= n <= |ops|
    ensures ForwardChain(states[n].history) && |states[n].history| <= 5 && states[m].history <= states[n].history
    ensures states[m].current.Some? ==> states[n].current.Some?
    ensures states[m].current.Some? ==> Height(states[m].current.value.state) <= Height(states[n].current.value.state)
    ensures states[m].current.Some? && (states[m].current.value.state.Failed? || states[m].current.value.state.Complete?) ==>
              StateOf(states[n].current) == StateOf(states[m].current)
  {
    RunInv(states, ops, m, n);
    if states[n].history != [] { ChainClimbs(states[n].history); }
    if states[m].current.Some? {
      ChainRises(states[n].history, |states[m].history| - 1, |states[n].history| - 1);
    }
  }

  lemma {:induction false} ChainRises(h: seq<RecoveryState>, i: nat, j: nat)
    requires ForwardChain(h) && i <= j < |h|
    ensures Height(h[i]) <= Height(h[j]) && (Final(h[i]) ==> i == j)
    decreases j
  {
    if i < j {
      assert LeadsTo(h[j - 1], h[j]);
      ChainRises(h, i, j - 1);
    }
  }
}
