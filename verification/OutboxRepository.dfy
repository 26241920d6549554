/** The transactional outbox: claims with generations and leases (InMemoryOutboxRepository), and the
    consumer's use of them (DurableOutboxWakeupConsumer). */
module OutboxRepository {
  import opened Options
  import opened DurableCore
  import opened Seqs
  import S = StableSort

  datatype ExecutionStatus =
    | BlockedRow | OutcomeUnknownRow | ProviderFailedRow | VerifiedRow
    | VerificationUnavailableRow | RecoveryRequiredRow | RolledBackRow

  /** The deterministic outbox identities; hashes are taken to be injective. */
  datatype OutboxId =
    | OutEvent(eventId: Id)
    | OutDecision(incidentId: Id, planVersion: int)
    | OutExecution(commandId: Id, version: nat, status: ExecutionStatus)
    | OutRollback(commandId: Id)
    | OutReconcile(commandId: Id, attempt: nat)

  datatype OutboxKind = RuntimeViewRefresh | IncidentReady | DecisionReady | ActionStateChanged | ActionExecutionReady | ReconciliationReady

  datatype RowState = Pending | Claimed | Sent | Failed

  datatype Row = Row(
    eventId: Id, kind: OutboxKind, createdAt: int,
    state: RowState, owner: Option<Id>, expiresAt: int, generation: nat, attempts: nat, sentAt: Option<int>)

  function NewRow(eventId: Id, kind: OutboxKind, createdAt: int): Row {
    Row(eventId, kind, createdAt, RowState.Pending, None, 0, 0, 0, None)
  }

  // ---------------------------------------------------------------- one row

  predicate Claimable(r: Row, now: int) {
    r.state.Pending? || r.state.Failed? || (r.state.Claimed? && r.expiresAt < now)
  }

  function ClaimRow(r: Row, owner: Id, lease: nat, now: int): Row {
    r.(state := Claimed, owner := Some(owner), expiresAt := now + lease, generation := r.generation + 1, attempts := r.attempts + 1)
  }

  /** Nobody has acknowledged the row, and no claim of it is still running. */
  predicate Free(r: Row, now: int) { r.state != RowState.Sent && (r.state == Claimed ==> r.expiresAt < now) }

  lemma FreeExactly(r: Row, now: int)
    ensures Claimable(r, now) <==> Free(r, now)
  {}

  /** The row is claimed for `owner` until `end`, under a generation of its own. */
  predicate Taken(before: Row, after: Row, owner: Id, end: int) {
    && after.state == Claimed && after.owner == Some(owner) && after.expiresAt == end && after.generation == before.generation + 1
    && after.attempts == before.attempts + 1 && after.eventId == before.eventId && after.kind == before.kind
    && after.createdAt == before.createdAt
  }

  /** The fence of `ack` and `fail`: the caller must present the current owner and generation. */
  predicate Holds(r: Row, owner: Id, generation: nat) { r.owner == Some(owner) && r.generation == generation }

  predicate CanRenew(r: Row, owner: Id, generation: nat, now: int) {
    r.state.Claimed? && Holds(r, owner, generation) && now < r.expiresAt
  }

  function AckRow(r: Row, now: int): Row { r.(state := RowState.Sent, sentAt := Some(now), expiresAt := 0) }

  function FailRow(r: Row, retry: bool): Row {
    r.(state := if retry then RowState.Pending else RowState.Failed, owner := None, expiresAt := 0)
  }

  // ---------------------------------------------------------------- the repository

  datatype Entry = Entry(id: OutboxId, createdAt: int)

  predicate Older(a: Entry, b: Entry) { a.createdAt < b.createdAt }

  function Entries(order: seq<OutboxId>, rows: map<OutboxId, Row>): (r: seq<Entry>)
    requires forall id <- order :: id in rows
    ensures |r| == |order| && forall i :: 0 <= i < |r| ==> r[i] == Entry(order[i], rows[order[i]].createdAt)
  {
    seq(|order|, i requires 0 <= i < |order| => Entry(order[i], rows[order[i]].createdAt))
  }

  class OutboxRepository {
    var rows: map<OutboxId, Row>
    var order: seq<OutboxId>  // insertion order of the dictionary

    ghost predicate Valid() reads this { forall id :: id in order <==> id in rows }

    constructor ()
      ensures Valid() && rows == map[]
    {
      rows, order := map[], [];
    }

    /** A new identity is stored as given; appending a known one changes nothing. */
    method Append(id: OutboxId, row: Row)
      requires Valid()
      modifies this
      ensures Valid() && rows == AppendRow(old(rows), id, row)
      ensures rows == if id in old(rows) then old(rows) else old(rows)[id := row]
    {
      if id in rows { return; }
      rows := rows[id := row];
      order := order + [id];
    }

    /** `sorted(self._items.values(), key=created_at)`. */
    method OldestFirst() returns (sorted: seq<Entry>)
      requires Valid()
      ensures forall e <- sorted :: e.id in rows && e.createdAt == rows[e.id].createdAt
      ensures forall id <- rows :: exists i :: 0 <= i < |sorted| && sorted[i].id == id
      ensures forall i, j :: 0 <= i < j < |sorted| ==> sorted[i].createdAt <= sorted[j].createdAt
    {
      sorted := S.Sort(Entries(order, rows), Older);
      S.SortSorts(Entries(order, rows), Older);
      forall e | e in sorted
        ensures e.id in rows && e.createdAt == rows[e.id].createdAt
      {
        SortedIsRow(order, rows, e);
      }
      forall id | id in rows
        ensures exists i :: 0 <= i < |sorted| && sorted[i].id == id
      {
        SortedHasRow(order, rows, id);
      }
    }

    /** Claims the oldest claimable rows, at most `limit`, and touches no other row. */
    method Claim(owner: Id, limit: nat, lease: nat, now: int) returns (claimed: seq<OutboxId>)
      requires Valid()
      modifies this`rows
      ensures Valid() && rows.Keys == old(rows.Keys) && |claimed| <= limit && AllDistinct(claimed)
      ensures forall id <- claimed :: id in old(rows) && Free(old(rows)[id], now)
      ensures forall id <- rows :: rows[id] == if id in claimed then ClaimRow(old(rows)[id], owner, lease, now) else old(rows)[id]
      ensures forall id <- claimed :: Taken(old(rows)[id], rows[id], owner, now + lease)
      ensures forall id <- rows :: Free(old(rows)[id], now) && id !in claimed ==>
                |claimed| == limit && forall c <- claimed :: old(rows)[c].createdAt <= old(rows)[id].createdAt
    {
      forall r: Row
        ensures Claimable(r, now) <==> Free(r, now)
      {
        FreeExactly(r, now);
      }
      var sorted := OldestFirst();
      var next: map<OutboxId, Row>;
      next, claimed := ClaimInOrder(sorted, rows, owner, limit, lease, now);
      rows := next;
    }

    method Renew(id: OutboxId, owner: Id, generation: nat, lease: nat, now: int) returns (renewed: bool)
      requires id in rows
      modifies this`rows
      ensures var r := old(rows)[id]; renewed <==> r.state == Claimed && r.owner == Some(owner) && r.generation == generation && now < r.expiresAt
      ensures rows == if renewed then old(rows)[id := old(rows)[id].(expiresAt := now + lease)] else old(rows)
    {
      renewed := CanRenew(rows[id], owner, generation, now);
      if renewed { rows := rows[id := rows[id].(expiresAt := now + lease)]; }
    }

    method Ack(id: OutboxId, owner: Id, generation: nat, now: int) returns (accepted: bool)
      requires id in rows
      modifies this`rows
      ensures accepted <==> old(rows)[id].owner == Some(owner) && old(rows)[id].generation == generation
      ensures rows == if accepted then old(rows)[id := AckRow(old(rows)[id], now)] else old(rows)
      ensures accepted ==> rows[id] == old(rows)[id].(state := RowState.Sent, sentAt := Some(now), expiresAt := 0)
    {
      accepted := Holds(rows[id], owner, generation);
      if accepted { rows := rows[id := AckRow(rows[id], now)]; }
    }

    method Fail(id: OutboxId, owner: Id, generation: nat, retry: bool) returns (accepted: bool)
      requires id in rows
      modifies this`rows
      ensures accepted <==> old(rows)[id].owner == Some(owner) && old(rows)[id].generation == generation
      ensures rows == if accepted then old(rows)[id := FailRow(old(rows)[id], retry)] else old(rows)
      ensures accepted && retry ==> rows[id] == old(rows)[id].(state := RowState.Pending, owner := None, expiresAt := 0)
      ensures accepted && !retry ==> rows[id] == old(rows)[id].(state := RowState.Failed, owner := None, expiresAt := 0)
    {
      accepted := Holds(rows[id], owner, generation);
      if accepted { rows := rows[id := FailRow(rows[id], retry)]; }
    }
  }

  /** The claiming loop over the rows in order. */
  method ClaimInOrder(sorted: seq<Entry>, was: map<OutboxId, Row>, owner: Id, limit: nat, lease: nat, now: int)
    returns (rows: map<OutboxId, Row>, claimed: seq<OutboxId>)
    requires forall i :: 0 <= i < |sorted| ==> sorted[i].id in was && sorted[i].createdAt == was[sorted[i].id].createdAt
    requires forall i, j :: 0 <= i < j < |sorted| ==> sorted[i].createdAt <= sorted[j].createdAt
    ensures rows.Keys == was.Keys && |claimed| <= limit && AllDistinct(claimed)
    ensures forall id <- claimed :: id in was && Claimable(was[id], now)
    ensures forall id <- was :: rows[id] == if id in claimed then ClaimRow(was[id], owner, lease, now) else was[id]
    ensures forall i :: 0 <= i < |sorted| && Claimable(was[sorted[i].id], now) && sorted[i].id !in claimed ==>
              |claimed| == limit && forall c <- claimed :: was[c].createdAt <= sorted[i].createdAt
  {
    rows, claimed := was, [];
    for n := 0 to |sorted|
      invariant rows.Keys == was.Keys && |claimed| <= limit && AllDistinct(claimed)
      invariant forall id <- claimed :: id in was && Claimable(was[id], now)
      invariant forall id <- claimed :: forall i :: n <= i < |sorted| ==> was[id].createdAt <= sorted[i].createdAt
      invariant forall id <- was :: rows[id] == if id in claimed then ClaimRow(was[id], owner, lease, now) else was[id]
      invariant forall i :: 0 <= i < n && Claimable(was[sorted[i].id], now) ==> sorted[i].id in claimed
    {
      if |claimed| >= limit { break; }
      var id := sorted[n].id;
      if Claimable(rows[id], now) {
        assert id !in claimed;
        AppendDistinct(claimed, id);
        rows := rows[id := ClaimRow(rows[id], owner, lease, now)];
        claimed := claimed + [id];
      }
    }
  }

  function AppendRow(rows: map<OutboxId, Row>, id: OutboxId, row: Row): map<OutboxId, Row> {
    if id in rows then rows else rows[id := row]
  }

  lemma SortedHasRow(order: seq<OutboxId>, rows: map<OutboxId, Row>, id: OutboxId)
    requires forall x :: x in order <==> x in rows
    ensures id in rows ==> exists i :: 0 <= i < |order| && S.Sort(Entries(order, rows), Older)[i] == Entry(id, rows[id].createdAt)
  {
    if id in rows {
      var k :| 0 <= k < |order| && order[k] == id;
      var e := Entries(order, rows)[k];
      S.SortMembers(Entries(order, rows), Older, e);
    }
  }

  lemma SortedIsRow(order: seq<OutboxId>, rows: map<OutboxId, Row>, e: Entry)
    requires forall x :: x in order <==> x in rows
    requires e in S.Sort(Entries(order, rows), Older)
    ensures e.id in rows && e.createdAt == rows[e.id].createdAt
  {
    S.SortMembers(Entries(order, rows), Older, e);
  }

  // ---------------------------------------------------------------- runs of one row

  /** The calls that reach one row; a call that the fence refuses changes nothing.  `Append` delivers the identity of
      the row once more. */
  datatype Op =
    | Append(id: OutboxId, row: Row)
    | Claim(owner: Id, lease: nat)
    | Renew(owner: Id, generation: nat, lease: nat)
    | Ack(owner: Id, generation: nat)
    | Fail(owner: Id, generation: nat, retry: bool)
    | Pause  // nothing reaches the row

  predicate Accepted(r: Row, op: Op, now: int) {
    match op
    case Append(_, _) => false
    case Claim(_, _) => Claimable(r, now)
    case Renew(owner, generation, _) => CanRenew(r, owner, generation, now)
    case Ack(owner, generation) => Holds(r, owner, generation)
    case Fail(owner, generation, _) => Holds(r, owner, generation)
    case Pause => false
  }

  /** The call presents this claim generation. */
  predicate Presents(op: Op, generation: nat) { (op.Renew? || op.Ack? || op.Fail?) && op.generation == generation }

  function Apply(r: Row, op: Op, now: int): Row {
    if op.Append? then AppendRow(map[op.id := r], op.id, op.row)[op.id]
    else if !Accepted(r, op, now) then r
    else match op
      case Claim(owner, lease) => ClaimRow(r, owner, lease, now)
      case Renew(_, _, lease) => r.(expiresAt := now + lease)
      case Ack(_, _) => AckRow(r, now)
      case Fail(_, _, retry) => FailRow(r, retry)
  }

  /** `rows[i]` is the row before call `i`, which is made at `at[i]`; time never runs backwards. */
  ghost predicate Run(rows: seq<Row>, ops: seq<Op>, at: seq<int>) {
    && |rows| == |ops| + 1 == |at| + 1
    && rows[0] == NewRow(rows[0].eventId, rows[0].kind, rows[0].createdAt)
    && (forall i :: 0 <= i < |ops| ==> rows[i + 1] == Apply(rows[i], ops[i], at[i]))
    && (forall i, j :: 0 <= i < j < |at| ==> at[i] <= at[j])
  }

  /** A successful claim, renewal, acknowledgement or failure at step `i`. */
  ghost predicate Did(rows: seq<Row>, ops: seq<Op>, at: seq<int>, i: int) {
    0 <= i < |ops| && |rows| == |ops| + 1 == |at| + 1 && Accepted(rows[i], ops[i], at[i])
  }

  lemma {:induction false} GenerationsRise(rows: seq<Row>, ops: seq<Op>, at: seq<int>, i: nat, j: nat)
    requires Run(rows, ops, at) && i <= j <= |ops|
    ensures rows[i].generation <= rows[j].generation
    decreases j
  {
    if i < j { GenerationsRise(rows, ops, at, i, j - 1); }
  }

  /** Two successful claims never get the same generation, and every call that presents the earlier
      one after the later claim is refused, for ever. */
  lemma Fenced(rows: seq<Row>, ops: seq<Op>, at: seq<int>, i: nat, j: nat, k: nat)
    requires Run(rows, ops, at) && i < j < k < |ops|
    requires Did(rows, ops, at, i) && ops[i].Claim? && Did(rows, ops, at, j) && ops[j].Claim?
    ensures rows[i + 1].generation < rows[j + 1].generation
    ensures Presents(ops[k], rows[i + 1].generation) ==> !Accepted(rows[k], ops[k], at[k]) && rows[k + 1] == rows[k]
  {
    GenerationsRise(rows, ops, at, i + 1, j);
    GenerationsRise(rows, ops, at, j + 1, k);
  }

  ghost predicate ReleasedBetween(rows: seq<Row>, ops: seq<Op>, at: seq<int>, i: int, j: int) {
    exists m :: i < m < j && Did(rows, ops, at, m) && ops[m].Fail?
  }

  /** How the row looks while nobody else has claimed it. */
  lemma {:induction false} StillHeld(rows: seq<Row>, ops: seq<Op>, at: seq<int>, i: nat, j: nat)
    requires Run(rows, ops, at) && i < j <= |ops| && Did(rows, ops, at, i) && ops[i].Claim?
    requires forall m :: i < m < j && ops[m].Claim? ==> !Did(rows, ops, at, m)
    requires !ReleasedBetween(rows, ops, at, i, j)
    ensures rows[j].owner == Some(ops[i].owner) && rows[j].generation == rows[i + 1].generation
    ensures rows[j].state.Claimed? || rows[j].state.Sent?
    decreases j
  {
    if i + 1 < j {
      assert forall m :: i < m < j - 1 ==> (Did(rows, ops, at, m) && ops[m].Fail? ==> i < m < j);
      StillHeld(rows, ops, at, i, j - 1);
      assert !(Did(rows, ops, at, j - 1) && ops[j - 1].Fail?);
    }
  }

  /** Unexpired claims never overlap: when a row is claimed again without having been given back, the
      previous claim had run out strictly before. */
  lemma ClaimsNeverOverlap(rows: seq<Row>, ops: seq<Op>, at: seq<int>, i: nat, j: nat)
    requires Run(rows, ops, at) && i < j < |ops|
    requires Did(rows, ops, at, i) && ops[i].Claim? && Did(rows, ops, at, j) && ops[j].Claim?
    requires forall m :: i < m < j && ops[m].Claim? ==> !Did(rows, ops, at, m)
    requires !ReleasedBetween(rows, ops, at, i, j)
    ensures rows[j].generation == rows[i + 1].generation && rows[j].expiresAt < at[j]
  {
    StillHeld(rows, ops, at, i, j);
  }

  /** The one misuse that could revive a sent row: its acknowledger reporting a failure afterwards. */
  ghost predicate AckerFailsLater(rows: seq<Row>, ops: seq<Op>, at: seq<int>, i: nat, j: nat)
    requires i < |ops|
  {
    exists k :: i < k < j && k < |ops| && ops[k].Fail? && ops[i].Ack? && ops[k].owner == ops[i].owner && ops[k].generation == ops[i].generation
  }

  lemma {:induction false} SentStaysSent(rows: seq<Row>, ops: seq<Op>, at: seq<int>, i: nat, j: nat)
    requires Run(rows, ops, at) && i < j <= |ops| && Did(rows, ops, at, i) && ops[i].Ack?
    requires !AckerFailsLater(rows, ops, at, i, j)
    ensures rows[j].state.Sent? && rows[j].owner == Some(ops[i].owner) && rows[j].generation == ops[i].generation
    decreases j
  {
    if i + 1 < j {
      SentStaysSent(rows, ops, at, i, j - 1);
    }
  }

  /** After an acknowledgement the row is sent at every later moment, and no claim of it succeeds,
      exactly as long as its acknowledger does not call `fail` for the same claim. */
  lemma AckedExactly(rows: seq<Row>, ops: seq<Op>, at: seq<int>, i: nat)
    requires Run(rows, ops, at) && Did(rows, ops, at, i) && ops[i].Ack?
    ensures (forall j :: i < j <= |ops| ==> rows[j].state.Sent?) <==> !AckerFailsLater(rows, ops, at, i, |ops|)
    ensures !AckerFailsLater(rows, ops, at, i, |ops|) ==> forall j :: i < j < |ops| && ops[j].Claim? ==> !Accepted(rows[j], ops[j], at[j])
  {
    if !AckerFailsLater(rows, ops, at, i, |ops|) {
      forall j | i < j <= |ops|
        ensures rows[j].state.Sent?
      {
        SentStaysSent(rows, ops, at, i, j);
      }
    } else {
      FirstFailRevives(rows, ops, at, i, |ops|);
    }
  }

  lemma {:induction false} FirstFailRevives(rows: seq<Row>, ops: seq<Op>, at: seq<int>, i: nat, n: nat)
    requires Run(rows, ops, at) && i < n <= |ops| && Did(rows, ops, at, i) && ops[i].Ack?
    requires AckerFailsLater(rows, ops, at, i, n)
    ensures exists j :: i < j <= n && !rows[j].state.Sent?
    decreases n
  {
    var k :| i < k < n && ops[k].Fail? && ops[k].owner == ops[i].owner && ops[k].generation == ops[i].generation;
    if AckerFailsLater(rows, ops, at, i, k) {
      FirstFailRevives(rows, ops, at, i, k);
    } else {
      SentStaysSent(rows, ops, at, i, k);
      assert !rows[k + 1].state.Sent?;
    }
  }

  /** No row is lost: at every moment of every run, redeliveries included, a claim succeeds unless the row has been
      acknowledged or an earlier claim of it is still running, and a sent row has been acknowledged. */
  lemma {:induction false} NothingIsLost(rows: seq<Row>, ops: seq<Op>, at: seq<int>, n: nat, owner: Id, lease: nat,
                                         now: int)
    requires Run(rows, ops, at) && n <= |ops|
    ensures Accepted(rows[n], Claim(owner, lease), now) <==> Free(rows[n], now)
    ensures rows[n].state == RowState.Sent ==> exists i :: 0 <= i < n && Did(rows, ops, at, i) && ops[i].Ack?
  {
    FreeExactly(rows[n], now);
    if n > 0 && rows[n].state == RowState.Sent {
      var k := n - 1;
      NothingIsLost(rows, ops, at, k, owner, lease, now);
      if rows[k].state != RowState.Sent { assert Did(rows, ops, at, k) && ops[k].Ack?; }
    }
  }

  // ---------------------------------------------------------------- runs of consumers

  /** Where a consumer is with one row: it holds a claim, or an exception has taken it to its `except` clause. */
  datatype Phase = Idle | Working(generation: nat) | Failing(generation: nat)

  /** What a consumer does next with the row; `thenRaises` tells that something raised after `ack` returned. */
  datatype Happening =
    | Delivers(id: OutboxId, row: Row)  // a handler reports the same once more
    | Claims(lease: nat)
    | Renews(lease: nat)
    | LetsGo  // expired before its turn, ResourceAlreadyOwned, or the process died
    | Raises
    | Acks(thenRaises: bool)
    | Fails

  datatype Event = Event(who: Id, what: Happening)

  function PhaseOf(phases: map<Id, Phase>, who: Id): Phase { if who in phases then phases[who] else Idle }

  /** The call that reaches the row. */
  function Issued(phase: Phase, e: Event): Op {
    match (phase, e.what)
    case (_, Delivers(id, row)) => Append(id, row)
    case (Idle, Claims(lease)) => Claim(e.who, lease)
    case (Working(g), Renews(lease)) => Renew(e.who, g, lease)
    case (Working(g), Acks(_)) => Ack(e.who, g)
    case (Failing(g), Fails) => Fail(e.who, g, true)
    case _ => Pause
  }

  /** A refused `ack` raises ResourceAlreadyOwned, and the consumer lets go. */
  function PhaseAfter(r: Row, phase: Phase, e: Event, now: int): Phase {
    match (phase, e.what)
    case (_, Delivers(_, _)) => phase
    case (Idle, Claims(_)) => if Claimable(r, now) then Working(r.generation + 1) else Idle
    case (Working(g), Raises) => Failing(g)
    case (Working(g), Acks(raises)) => if raises && Holds(r, e.who, g) then Failing(g) else Idle
    case (Working(g), Renews(_)) => Working(g)
    case (Failing(g), Fails) => Idle
    case (Failing(g), _) => Failing(g)
    case _ => Idle
  }

  /** Any consumers on one row.  There is no await between an exception and the `fail` that reports it, so that
      `fail` comes next. */
  ghost predicate ConsumerRun(rows: seq<Row>, phases: seq<map<Id, Phase>>, events: seq<Event>, ops: seq<Op>,
                              at: seq<int>) {
    && Run(rows, ops, at) && |events| == |ops| && |phases| == |rows| && phases[0] == map[]
    && forall i, j :: 0 <= i < j < |phases| && j == i + 1 ==> Consumes(rows[i], phases[i], events[i], ops[i], at[i], phases[j])
  }

  ghost predicate Consumes(r: Row, phases: map<Id, Phase>, e: Event, op: Op, now: int, after: map<Id, Phase>) {
    && op == Issued(PhaseOf(phases, e.who), e)
    && after == phases[e.who := PhaseAfter(r, PhaseOf(phases, e.who), e, now)]
    && forall who :: PhaseOf(phases, who).Failing? ==> e == Event(who, Fails)
  }

  /** After its acknowledgement a consumer that did not fail is past that claim for good. */
  lemma {:induction false} PastTheClaim(rows: seq<Row>, phases: seq<map<Id, Phase>>, events: seq<Event>, ops: seq<Op>,
                                        at: seq<int>, i: nat, j: nat)
    requires ConsumerRun(rows, phases, events, ops, at) && i < j <= |ops| && Did(rows, ops, at, i) && ops[i].Ack?
    requires events[i].what.Acks? && !events[i].what.thenRaises
    ensures var p := PhaseOf(phases[j], ops[i].owner); p.Idle? || ops[i].generation < p.generation
    decreases j
  {
    assert Consumes(rows[j - 1], phases[j - 1], events[j - 1], ops[j - 1], at[j - 1], phases[j]);
    if i + 1 < j {
      PastTheClaim(rows, phases, events, ops, at, i, j - 1);
      GenerationsRise(rows, ops, at, i, j - 1);
    }
  }

  lemma AckIsIssued(rows: seq<Row>, phases: seq<map<Id, Phase>>, events: seq<Event>, ops: seq<Op>, at: seq<int>, i: nat)
    requires ConsumerRun(rows, phases, events, ops, at) && i < |ops| && ops[i].Ack?
    ensures events[i].what.Acks? && events[i].who == ops[i].owner
    ensures PhaseOf(phases[i], ops[i].owner) == Working(ops[i].generation)
    ensures Did(rows, ops, at, i) && events[i].what.thenRaises ==> PhaseOf(phases[i + 1], ops[i].owner) == Failing(ops[i].generation)
  {
    assert Consumes(rows[i], phases[i], events[i], ops[i], at[i], phases[i + 1]);
  }

  /** In every run of consumers the acknowledger reports a failure of a row it has acknowledged exactly when something
      raised between `ack` and the end of the `try` block: then its very next step is that report. */
  lemma AckerFailsExactly(rows: seq<Row>, phases: seq<map<Id, Phase>>, events: seq<Event>, ops: seq<Op>, at: seq<int>,
                          i: nat)
    requires ConsumerRun(rows, phases, events, ops, at) && i + 1 < |ops| && Did(rows, ops, at, i) && ops[i].Ack?
    ensures events[i].what.Acks?
    ensures AckerFailsLater(rows, ops, at, i, |ops|) <==> events[i].what.thenRaises
  {
    AckIsIssued(rows, phases, events, ops, at, i);
    if events[i].what.thenRaises {
      assert Consumes(rows[i + 1], phases[i + 1], events[i + 1], ops[i + 1], at[i + 1], phases[i + 2]);
      assert ops[i + 1] == Fail(ops[i].owner, ops[i].generation, true);
    } else {
      forall k | i < k < |ops| && ops[k].Fail? && ops[k].owner == ops[i].owner
        ensures ops[k].generation != ops[i].generation
      {
        PastTheClaim(rows, phases, events, ops, at, i, k);
        assert Consumes(rows[k], phases[k], events[k], ops[k], at[k], phases[k + 1]);
      }
    }
  }

  /** So an acknowledged row stays sent, and is never claimed again, exactly when nothing after `ack` raised. */
  lemma AckedForGood(rows: seq<Row>, phases: seq<map<Id, Phase>>, events: seq<Event>, ops: seq<Op>, at: seq<int>,
                     i: nat)
    requires ConsumerRun(rows, phases, events, ops, at) && i + 1 < |ops| && Did(rows, ops, at, i) && ops[i].Ack?
    ensures events[i].what.Acks?
    ensures (forall j :: i < j <= |ops| ==> rows[j].state.Sent?) <==> !events[i].what.thenRaises
    ensures !events[i].what.thenRaises ==> forall j :: i < j < |ops| && ops[j].Claim? ==> !Accepted(rows[j], ops[j], at[j])
  {
    AckerFailsExactly(rows, phases, events, ops, at, i);
    AckedExactly(rows, ops, at, i);
  }

  // ---------------------------------------------------------------- the consumer

  /** How the `try` block of one claimed row goes: an exception before `ack`, which may be ResourceAlreadyOwned, or
      the call of `ack` and what follows it in the block. */
  datatype Course = Stops(owned: bool) | Reaches(thenRaises: bool)

  /** The exception that left the `try` block. */
  datatype Thrown = NoException | AlreadyOwned | Other

  /** What the handling of a row leaves of it. */
  function HandledRow(r: Row, owner: Id, generation: nat, course: Course, now: int): Row {
    if course == Stops(true) then r
    else if course == Stops(false) then Apply(r, Fail(owner, generation, true), now)
    else if Holds(r, owner, generation) && course.thenRaises then Apply(Apply(r, Ack(owner, generation), now), Fail(owner, generation, true), now)
    else Apply(r, Ack(owner, generation), now)
  }

  class Consumer {
    const outbox: OutboxRepository
    const owner: Id

    constructor (outbox: OutboxRepository, owner: Id)
      ensures this.outbox == outbox && this.owner == owner
    {
      this.outbox := outbox;
      this.owner := owner;
    }

    /** The `try` statement of `process_once` for one claimed row. */
    method ProcessRow(id: OutboxId, generation: nat, course: Course, now: int) returns (processed: bool)
      requires id in outbox.rows
      modifies outbox`rows
      ensures outbox.rows == old(outbox.rows)[id := HandledRow(old(outbox.rows)[id], owner, generation, course, now)]
      ensures processed <==> course == Reaches(false) && Holds(old(outbox.rows)[id], owner, generation)
      ensures processed ==> outbox.rows[id].state.Sent?
      ensures !Holds(old(outbox.rows)[id], owner, generation) ==> outbox.rows == old(outbox.rows)
      ensures Holds(old(outbox.rows)[id], owner, generation) && !processed && course != Stops(true) ==>
                outbox.rows[id].state.Pending? && outbox.rows[id].owner.None?
    {
      var thrown := NoException;
      processed := false;
      // try
      if course.Stops? {
        thrown := if course.owned then AlreadyOwned else Other;
      } else {
        var accepted := outbox.Ack(id, owner, generation, now);
        if !accepted {
          thrown := AlreadyOwned;
        } else if course.thenRaises {
          thrown := Other;
        } else {
          processed := true;
        }
      }
      // except
      if thrown.Other? {
        var reported := outbox.Fail(id, owner, generation, true);
      }
    }

    /** The turn of one claimed row: it is left alone when its claim has run out. */
    method TakeTurn(id: OutboxId, row: Row, course: Course, now: int) returns (processed: bool)
      requires id in outbox.rows && outbox.rows[id] == row && row.owner == Some(owner)
      modifies outbox`rows
      ensures outbox.rows == old(outbox.rows)[id := TurnRow(row, owner, course, now)]
      ensures processed <==> now < row.expiresAt && course == Reaches(false)
    {
      processed := false;
      if now < row.expiresAt { processed := ProcessRow(id, row.generation, course, now); }
    }

    /** `process_once`: claims rows and handles them one by one, each at its own time. */
    method ProcessOnce(limit: nat, lease: nat, now: int, course: OutboxId -> Course, clock: OutboxId -> int)
      returns (processed: nat, claimed: seq<OutboxId>)
      requires outbox.Valid()
      modifies outbox`rows
      ensures outbox.Valid() && outbox.rows.Keys == old(outbox.rows.Keys) && processed <= |claimed| <= limit
      ensures forall id <- claimed :: id in old(outbox.rows) && Free(old(outbox.rows)[id], now)
      ensures forall id <- old(outbox.rows) :: id !in claimed ==> outbox.rows[id] == old(outbox.rows)[id]
      ensures forall id <- claimed :: id in outbox.rows && Handled(outbox.rows[id], owner, clock(id) < now + lease, course(id))
      ensures processed == |InTime(claimed, now + lease, course, clock)|
    {
      ghost var was := outbox.rows;
      processed, claimed := Sweep(limit, lease, now, course, clock);
      forall id | id in claimed
        ensures id in outbox.rows && Handled(outbox.rows[id], owner, clock(id) < now + lease, course(id))
      {
        TurnHandles(was[id], owner, lease, now, course(id), clock(id));
      }
      ProcessedInTime(claimed, now + lease, course, clock);
    }

    /** The claims, and the loop over them. */
    method Sweep(limit: nat, lease: nat, now: int, course: OutboxId -> Course, clock: OutboxId -> int)
      returns (processed: nat, claimed: seq<OutboxId>)
      requires outbox.Valid()
      modifies outbox`rows
      ensures outbox.Valid() && outbox.rows.Keys == old(outbox.rows.Keys) && processed <= |claimed| <= limit && AllDistinct(claimed)
      ensures forall id <- claimed :: id in old(outbox.rows) && Free(old(outbox.rows)[id], now)
      ensures forall id <- old(outbox.rows) :: id !in claimed ==> outbox.rows[id] == old(outbox.rows)[id]
      ensures forall id <- claimed ::
                (outbox.rows[id] == TurnRow(ClaimRow(old(outbox.rows)[id], owner, lease, now), owner, course(id), clock(id)))
      ensures processed == Processed(claimed, now + lease, course, clock)
    {
      claimed := outbox.Claim(owner, limit, lease, now);
      var taken := outbox.rows;
      ghost var handled: set<OutboxId> := {};
      processed := 0;
      for k := 0 to |claimed|
        invariant outbox.Valid() && outbox.rows.Keys == taken.Keys && processed <= k
        invariant forall id :: id in handled <==> id in claimed[..k]
        invariant forall id <- taken :: outbox.rows[id] == if id in handled then TurnRow(taken[id], owner, course(id), clock(id)) else taken[id]
        invariant processed == Processed(claimed[..k], now + lease, course, clock)
      {
        var id := claimed[k];
        assert claimed[..k + 1] == claimed[..k] + [id] && claimed[..k + 1][..k] == claimed[..k];
        assert id !in claimed[..k];
        var done := TakeTurn(id, taken[id], course(id), clock(id));
        handled := handled + {id};
        if done { processed := processed + 1; }
      }
      assert claimed[..|claimed|] == claimed;
    }
  }

  /** A row whose turn came after its claim had run out, or which the consumer has lost, is still claimed; one that was
      acknowledged is sent; and one whose handling raised is pending again. */
  predicate Handled(r: Row, owner: Id, inTime: bool, course: Course) {
    if !inTime || course == Stops(true) then r.state == Claimed && r.owner == Some(owner)
    else if course == Reaches(false) then r.state == RowState.Sent
    else r.state == RowState.Pending && r.owner == None
  }

  /** The rows whose turn came in time and went through. */
  ghost function InTime(claimed: seq<OutboxId>, expiresAt: int, course: OutboxId -> Course,
                        clock: OutboxId -> int): set<OutboxId> {
    set id | id in claimed && clock(id) < expiresAt && course(id) == Reaches(false)
  }

  lemma TurnHandles(r: Row, owner: Id, lease: nat, now: int, course: Course, at: int)
    ensures Handled(TurnRow(ClaimRow(r, owner, lease, now), owner, course, at), owner, at < now + lease, course)
  {}

  lemma InTimeGrows(rest: seq<OutboxId>, id: OutboxId, expiresAt: int, course: OutboxId -> Course,
                    clock: OutboxId -> int)
    requires id !in rest
    ensures |InTime(rest + [id], expiresAt, course, clock)| == |InTime(rest, expiresAt, course, clock)|
              + if clock(id) < expiresAt && course(id) == Reaches(false) then 1 else 0
  {
    assert InTime(rest + [id], expiresAt, course, clock) == InTime(rest, expiresAt, course, clock)
                                                              + if clock(id) < expiresAt && course(id) == Reaches(false) then {id} else {};
  }

  lemma {:induction false} ProcessedInTime(claimed: seq<OutboxId>, expiresAt: int, course: OutboxId -> Course,
                                           clock: OutboxId -> int)
    requires AllDistinct(claimed)
    ensures Processed(claimed, expiresAt, course, clock) == |InTime(claimed, expiresAt, course, clock)|
  {
    if claimed == [] {
      assert InTime(claimed, expiresAt, course, clock) == {};
    } else {
      var n := |claimed| - 1;
      ProcessedInTime(claimed[..n], expiresAt, course, clock);
      InTimeGrows(claimed[..n], claimed[n], expiresAt, course, clock);
      assert claimed == claimed[..n] + [claimed[n]];
    }
  }

  /** A claimed row after its turn. */
  function TurnRow(r: Row, owner: Id, course: Course, now: int): Row {
    if r.expiresAt <= now then r else HandledRow(r, owner, r.generation, course, now)
  }

  function Processed(claimed: seq<OutboxId>, expiresAt: int, course: OutboxId -> Course, clock: OutboxId -> int): nat {
    if claimed == [] then 0
    else
      var id := claimed[|claimed| - 1];
      Processed(claimed[..|claimed| - 1], expiresAt, course,
                clock) + (if clock(id) < expiresAt && course(id) == Reaches(false) then 1 else 0)
  }
}
