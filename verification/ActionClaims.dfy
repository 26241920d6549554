/** At-most-once provider mutations, over every interleaving of single repository operations.

    Any number of workers run the handlers of the executor and of the reconciler.  A worker is
    suspended between two operations and holds what it has read; every operation of the action
    repository, every provider call and every provider answer is a step of its own.  Workers may crash
    anywhere and restart marking may run at any time, also beside live workers.  Guards over incidents,
    leases, costs and verification results are dropped: a worker may take any branch, so the
    results hold whatever those repositories say. */
module ActionClaims {
  import opened Options
  import opened DurableCore

  /** What the provider saw: `via` is the rollback command whose claim authorised the rollback of `target`. */
  datatype Call = ExecuteCall(target: Id) | RollbackCall(target: Id, via: Id)
  {
    /** The command whose READY -> SENT claim the call spends. */
    function Claim(): Id { if ExecuteCall? then target else via }
  }

  datatype Worker =
    | Idle
      // holds a snapshot, and possibly a provider identity learned from a reconciliation read
    | Holding(snap: ActionCommand, learned: Option<Id>)
      // won READY -> SENT for `snap`; has not called the provider
    | Claimed(snap: ActionCommand)
      // `adapter.execute` was called and has not answered
    | Executing(snap: ActionCommand)
      // `adapter.reconcile` was called and has not answered
    | Reconciling(snap: ActionCommand)
      // in `_rollback` of `orig`, with the stored rollback command as read
    | RollbackReady(orig: ActionCommand, snap: ActionCommand)
      // won READY -> SENT for the rollback command `snap`
    | RollbackClaimed(orig: ActionCommand, snap: ActionCommand)

  predicate HoldsClaim(p: Worker) { p.Claimed? || p.RollbackClaimed? }

  datatype System = System(store: ActionStore, workers: map<nat, Worker>, calls: seq<Call>)
  {
    function At(w: nat): Worker { if w in workers then workers[w] else Idle }
    function Put(w: nat, p: Worker): System { this.(workers := workers[w := p]) }
    function Call(c: Call): System { this.(calls := calls + [c]) }
  }

  // ---------------------------------------------------------------- steps

  datatype Op =
    | Create(cmd: ActionCommand)
    | Read(id: Id)
    | Claim(now: int)
    | Execute
    | ExecuteAnswer(accepted: Option<Option<Id>>)
    | AskReconcile
    | ReconcileAnswer(accepted: Option<Option<Id>>)
    | Settle(state: ActionState, done: Option<int>)
    | PrepareRollback(cmd: ActionCommand)
    | ClaimRollback(now: int)
    | Rollback
    | Crash
    | RestartMark

  /** A command as decision and rollback code creates it: fresh identity, never attempted, no provider resource. */
  predicate Newborn(s: ActionStore, c: ActionCommand) {
    c.commandId !in s.byId && c.attemptCount == 0 && c.providerResourceId.None? && c.state.Ready?
  }

  /** The write of `_update_action(.., SENT)`. */
  function SentCopy(c: ActionCommand, now: int): ActionCommand {
    c.(state := Sent, attemptCount := c.attemptCount + 1, lastAttemptAt := Some(now))
  }

  /** The write of `_update_action` for every other target state. */
  function SettledCopy(c: ActionCommand, state: ActionState, done: Option<int>, learned: Option<Id>): ActionCommand {
    c.(state := state, completedAt := done.Or(c.completedAt), providerResourceId := learned.Or(c.providerResourceId))
  }

  /** One compare-and-swap by worker `w`: on a conflict the handler raises and the worker ends. */
  function Cas(s: System, w: nat, expected: nat, wanted: ActionCommand, next: Worker): System {
    match s.store.Update(wanted, expected)
    case None => s.Put(w, Idle)
    case Some(store) => s.(store := store).Put(w, next)
  }

  /** READY -> SENT by worker `w`. */
  function TryClaim(s: System, w: nat, now: int): System
    requires s.At(w).Holding? || s.At(w).RollbackReady?
  {
    var p := s.At(w);
    var sent := SentCopy(p.snap, now);
    var stored := sent.(version := p.snap.version + 1);
    Cas(s, w, p.snap.version, sent, if p.Holding? then Claimed(stored) else RollbackClaimed(p.orig, stored))
  }

  /** Any other write by worker `w`, against the version of its snapshot. */
  function TrySettle(s: System, w: nat, snap: ActionCommand, wanted: ActionCommand): System {
    Cas(s, w, snap.version, wanted, Holding(wanted.(version := snap.version + 1), None))
  }

  /** `_rollback` looks up or creates the rollback command. */
  function Prepare(s: System, w: nat, cmd: ActionCommand): System
    requires s.store.Indexed() && !s.At(w).Idle?
  {
    var (store, stored) := s.store.CreateOrGet(cmd);
    s.(store := store).Put(w, RollbackReady(s.At(w).snap, stored))
  }

  predicate CanPrepare(s: System, p: Worker, cmd: ActionCommand) {
    && p.Holding? && p.snap.providerResourceId.Some? && IsPlanType(p.snap.commandType)
    && cmd.Key() == p.snap.RollbackKey() && Newborn(s.store, cmd)
  }

  /** `Some(s')` when worker `w` can do `op` in `s`. */
  function Step(s: System, w: nat, op: Op): Option<System>
    requires s.store.Indexed()
  {
    var p := s.At(w);
    match op
    case Create(cmd) =>
      if Newborn(s.store, cmd) then Some(s.(store := s.store.CreateOrGet(cmd).0)) else None
    case Read(id) =>
      if id in s.store.byId && (p.Idle? || (p.Holding? && p.snap.commandId == id))
      then Some(s.Put(w, Holding(s.store.byId[id], if p.Holding? then p.learned else None)))
      else None
    case Claim(now) =>
      if p.Holding? && p.snap.state.Ready? then Some(TryClaim(s, w, now)) else None
    case Execute =>
      if p.Claimed? then Some(s.Call(ExecuteCall(p.snap.commandId)).Put(w, Executing(p.snap))) else None
    case ExecuteAnswer(accepted) =>
      // an accepted request may carry a resource identity; a refused or ambiguous one carries none
      if p.Executing? then Some(s.Put(w, Holding(p.snap, accepted.Or(Some(None)).value))) else None
    case AskReconcile =>
      if p.Holding? then Some(s.Put(w, Reconciling(p.snap))) else None
    case ReconcileAnswer(accepted) =>
      // without a resource identity the adapter can only answer UNKNOWN
      if p.Reconciling? && (p.snap.providerResourceId.None? ==> accepted.None?)
      then Some(s.Put(w, Holding(p.snap, accepted.Or(Some(None)).value)))
      else None
    case Settle(state, done) =>
      // every write of either service other than the two claims
      if !state.Ready? && !state.Sent? && (p.Holding? || HoldsClaim(p))
      then Some(TrySettle(s, w, p.snap, SettledCopy(p.snap, state, done, if p.Holding? then p.learned else None))) else None
    case PrepareRollback(cmd) =>
      if CanPrepare(s, p, cmd) then Some(Prepare(s, w, cmd)) else None
    case ClaimRollback(now) =>
      if p.RollbackReady? && p.snap.state.Ready? then Some(TryClaim(s, w, now)) else None
    case Rollback =>
      if p.RollbackClaimed?
      then Some(s.Call(RollbackCall(p.orig.commandId, p.snap.commandId)).Put(w, Holding(p.snap, None)))
      else None
    case Crash => Some(s.Put(w, Idle))
    case RestartMark => Some(s.(store := s.store.MarkRestartUnknown()))
  }

  const Init: System := System(ActionStore(map[], map[]), map[], [])

  /** `s` is reached from the empty system by the steps `ops`. */
  ghost predicate Reaches(ops: seq<(nat, Op)>, s: System) {
    if ops == [] then s == Init
    else exists before: System ::
      && Reaches(ops[..|ops| - 1], before) && before.store.Indexed()
      && Step(before, ops[|ops| - 1].0, ops[|ops| - 1].1) == Some(s)
  }

  // ---------------------------------------------------------------- invariant

  /** A snapshot is a past value of its record: same identity, never newer, and equal when the versions agree. */
  ghost predicate Past(s: System, x: ActionCommand) {
    && x.commandId in s.store.byId
    && var now := s.store.byId[x.commandId];
       && x.Key() == now.Key()
       && x.version <= now.version
       && (x.version == now.version ==> x == now)
       && (x.providerResourceId.Some? ==> ExecuteCall(x.commandId) in s.calls)
  }

  ghost predicate RollbackPair(orig: ActionCommand, r: ActionCommand) {
    IsPlanType(orig.commandType) && orig.providerResourceId.Some? && r.Key() == orig.RollbackKey()
  }

  ghost predicate WorkerOk(s: System, p: Worker) {
    && (!p.Idle? ==> Past(s, p.snap))
    && (p.Holding? && p.learned.Some? ==> ExecuteCall(p.snap.commandId) in s.calls)
    && (p.Executing? ==> ExecuteCall(p.snap.commandId) in s.calls)
    && (HoldsClaim(p) ==>
        s.store.byId[p.snap.commandId].attemptCount == 1 && forall c <- s.calls :: c.Claim() != p.snap.commandId)
    && (p.RollbackReady? || p.RollbackClaimed? ==> Past(s, p.orig) && RollbackPair(p.orig, p.snap))
  }

  ghost predicate CallOk(s: System, c: Call) {
    && c.Claim() in s.store.byId && s.store.byId[c.Claim()].attemptCount == 1
    && (c.RollbackCall? ==>
        && c.target in s.store.byId && IsPlanType(s.store.byId[c.target].commandType)
        && s.store.byId[c.via].Key() == s.store.byId[c.target].RollbackKey())
  }

  ghost predicate RecordOk(s: System, c: ActionCommand) {
    && c.attemptCount <= 1
    && (c.state.Ready? ==> c.attemptCount == 0)
    && (c.providerResourceId.Some? ==> ExecuteCall(c.commandId) in s.calls)
  }

  /** No claim is spent twice, and a rollback comes after the execution it undoes. */
  ghost predicate CallsOk(calls: seq<Call>) {
    && (forall i, j :: 0 <= i < j < |calls| ==> calls[i].Claim() != calls[j].Claim())
    && (forall i :: 0 <= i < |calls| && calls[i].RollbackCall? ==> ExecuteCall(calls[i].target) in calls[..i])
  }

  /** At most one worker holds the unspent claim on a command. */
  ghost predicate OneHolder(workers: map<nat, Worker>) {
    forall v, w | v in workers && w in workers && HoldsClaim(workers[v]) && HoldsClaim(workers[w]) ::
      workers[v].snap.commandId == workers[w].snap.commandId ==> v == w
  }

  ghost predicate Inv(s: System) {
    && s.store.Indexed()
    && (forall id <- s.store.byId :: RecordOk(s, s.store.byId[id]))
    && (forall w <- s.workers :: WorkerOk(s, s.workers[w]))
    && OneHolder(s.workers)
    && (forall c <- s.calls :: CallOk(s, c))
    && CallsOk(s.calls)
  }

  // ---------------------------------------------------------------- preservation

  /** How the store and the call log may move: records keep their identity and attempts, versions
      only rise, and a changed record has a new version. */
  ghost predicate Grows(s: System, t: System) {
    && (forall id <- s.store.byId ::
        && id in t.store.byId
        && var a, b := s.store.byId[id], t.store.byId[id];
           && a.Key() == b.Key() && a.version <= b.version && a.attemptCount <= b.attemptCount
           && (a.version == b.version ==> a == b))
    && s.calls <= t.calls
  }

  lemma PastGrows(s: System, t: System, x: ActionCommand)
    requires Past(s, x) && Grows(s, t)
    ensures Past(t, x)
  {}

  /** Only the store moved, and no claim was taken. */
  lemma StoreKeepsInv(s: System, t: System)
    requires Inv(s) && t.workers == s.workers && t.calls == s.calls && Grows(s, t) && t.store.Indexed()
    requires forall id <- t.store.byId :: RecordOk(t, t.store.byId[id])
    ensures Inv(t)
  {
    forall w <- s.workers
      ensures WorkerOk(t, s.workers[w])
    {
      var p := s.workers[w];
      if !p.Idle? { PastGrows(s, t, p.snap); }
      if p.RollbackReady? || p.RollbackClaimed? { PastGrows(s, t, p.orig); }
    }
  }

  /** Worker `w` moved to `p`, which holds no claim that `w` did not hold before. */
  lemma PutKeepsInv(s: System, w: nat, p: Worker)
    requires Inv(s) && WorkerOk(s, p)
    requires HoldsClaim(p) ==> forall v <- s.workers :: HoldsClaim(s.workers[v]) && s.workers[v].snap.commandId == p.snap.commandId ==> v == w
    ensures Inv(s.Put(w, p))
  {
    var t := s.Put(w, p);
    forall v <- t.workers
      ensures WorkerOk(t, t.workers[v])
    {
      assert WorkerOk(s, t.workers[v]);
    }
  }

  /** A successful compare-and-swap from a past value replaces that very value. */
  lemma UpdateKeepsInv(s: System, snap: ActionCommand, wanted: ActionCommand)
    requires Inv(s) && Past(s, snap) && s.store.Update(wanted, snap.version).Some?
    requires wanted.commandId == snap.commandId && wanted.Key() == snap.Key()
    requires snap.attemptCount <= wanted.attemptCount <= 1 && !wanted.state.Ready?
    requires wanted.providerResourceId.Some? ==> ExecuteCall(snap.commandId) in s.calls
    ensures var t := s.(store := s.store.Update(wanted, snap.version).value);
            Inv(t) && Grows(s, t) && Past(t, wanted.(version := snap.version + 1))
    ensures s.store.byId[snap.commandId] == snap
  {
    var t := s.(store := s.store.Update(wanted, snap.version).value);
    UpdateGrows(s, snap, wanted);
    forall id <- t.store.byId
      ensures RecordOk(t, t.store.byId[id])
    {
      assert RecordOk(s, s.store.byId[id]);
    }
    StoreKeepsInv(s, t);
  }

  lemma UpdateGrows(s: System, snap: ActionCommand, wanted: ActionCommand)
    requires s.store.Indexed() && Past(s, snap) && s.store.Update(wanted, snap.version).Some?
    requires wanted.commandId == snap.commandId && wanted.Key() == snap.Key() && snap.attemptCount <= wanted.attemptCount
    requires wanted.providerResourceId.Some? ==> ExecuteCall(snap.commandId) in s.calls
    ensures var t := s.(store := s.store.Update(wanted, snap.version).value);
            t.store.Indexed() && Grows(s, t) && Past(t, wanted.(version := snap.version + 1))
    ensures s.store.byId[snap.commandId] == snap
  {}

  /** What a worker that may write holds. */
  lemma HeldIsPast(s: System, w: nat, learned: Option<Id>)
    requires Inv(s) && (s.At(w).Holding? || HoldsClaim(s.At(w))) && (learned.Some? ==> s.At(w).Holding? && learned == s.At(w).learned)
    ensures Past(s, s.At(w).snap)
    ensures learned.Some? || s.At(w).snap.providerResourceId.Some? ==> ExecuteCall(s.At(w).snap.commandId) in s.calls
  {
    assert WorkerOk(s, s.At(w));
  }

  lemma HoldKeepsInv(s: System, w: nat, x: ActionCommand)
    requires Inv(s) && Past(s, x)
    ensures Inv(s.Put(w, Holding(x, None)))
  {
    PutKeepsInv(s, w, Holding(x, None));
  }

  lemma SettleKeepsInv(s: System, w: nat, snap: ActionCommand, wanted: ActionCommand)
    requires Inv(s) && Past(s, snap) && wanted.commandId == snap.commandId && wanted.Key() == snap.Key()
    requires snap.attemptCount == wanted.attemptCount && !wanted.state.Ready?
    requires wanted.providerResourceId.Some? ==> ExecuteCall(snap.commandId) in s.calls
    ensures Inv(TrySettle(s, w, snap, wanted)) && Grows(s, TrySettle(s, w, snap, wanted))
  {
    match s.store.Update(wanted, snap.version)
    case None => PutKeepsInv(s, w, Idle);
    case Some(store) =>
      AttemptsBounded(s, snap);
      UpdateKeepsInv(s, snap, wanted);
      SettledKeepsInv(s, w, snap, wanted, s.(store := store));
  }

  lemma SettledKeepsInv(s: System, w: nat, snap: ActionCommand, wanted: ActionCommand, t: System)
    requires s.store.Update(wanted, snap.version) == Some(t.store) && t == s.(store := t.store)
    requires Inv(t) && Grows(s, t) && Past(t, wanted.(version := snap.version + 1))
    ensures Inv(TrySettle(s, w, snap, wanted)) && Grows(s, TrySettle(s, w, snap, wanted))
  {
    var p := Holding(wanted.(version := snap.version + 1), None);
    PutGrows(s, t, w, p);
    HoldKeepsInv(t, w, wanted.(version := snap.version + 1));
    assert TrySettle(s, w, snap, wanted) == t.Put(w, p);
  }

  /** Workers do not matter for how the store grows. */
  lemma PutGrows(s: System, t: System, w: nat, p: Worker)
    requires Grows(s, t)
    ensures Grows(s, t.Put(w, p))
  {}

  lemma AttemptsBounded(s: System, snap: ActionCommand)
    requires Inv(s) && Past(s, snap)
    ensures snap.version == s.store.byId[snap.commandId].version ==> snap.attemptCount <= 1
  {
    assert RecordOk(s, s.store.byId[snap.commandId]);
  }

  /** A command that is still READY has no call and no claim holder. */
  lemma ReadyIsUnclaimed(s: System, id: Id)
    requires Inv(s) && id in s.store.byId && s.store.byId[id].state.Ready?
    ensures forall c <- s.calls :: c.Claim() != id
    ensures forall v <- s.workers :: HoldsClaim(s.workers[v]) ==> s.workers[v].snap.commandId != id
  {
    assert RecordOk(s, s.store.byId[id]);
    forall c <- s.calls ensures c.Claim() != id { assert CallOk(s, c); }
    forall v <- s.workers | HoldsClaim(s.workers[v])
      ensures s.workers[v].snap.commandId != id
    {
      assert WorkerOk(s, s.workers[v]);
    }
  }

  /** READY -> SENT: the snapshot was current, so nobody had claimed the command before. */
  lemma ClaimKeepsInv(s: System, w: nat, now: int)
    requires Inv(s) && (s.At(w).Holding? || s.At(w).RollbackReady?) && s.At(w).snap.state.Ready?
    ensures Inv(TryClaim(s, w, now)) && Grows(s, TryClaim(s, w, now))
  {
    var p := s.At(w);
    var stored := SentCopy(p.snap, now).(version := p.snap.version + 1);
    ReaderIsPast(s, w);
    if p.RollbackReady? {
      ClaimFromPast(s, w, p.snap, now, RollbackClaimed(p.orig, stored));
    } else {
      ClaimFromPast(s, w, p.snap, now, Claimed(stored));
    }
  }

  /** What a worker that may claim holds. */
  lemma ReaderIsPast(s: System, w: nat)
    requires Inv(s) && (s.At(w).Holding? || s.At(w).RollbackReady?)
    ensures Past(s, s.At(w).snap)
    ensures s.At(w).RollbackReady? ==> Past(s, s.At(w).orig) && RollbackPair(s.At(w).orig, s.At(w).snap)
  {
    assert WorkerOk(s, s.At(w));
  }

  lemma ClaimFromPast(s: System, w: nat, snap: ActionCommand, now: int, next: Worker)
    requires Inv(s) && Past(s, snap) && snap.state.Ready?
    requires HoldsClaim(next) && next.snap == SentCopy(snap, now).(version := snap.version + 1)
    requires next.RollbackClaimed? ==> Past(s, next.orig) && RollbackPair(next.orig, snap)
    ensures var t := Cas(s, w, snap.version, SentCopy(snap, now), next); Inv(t) && Grows(s, t)
  {
    var sent := SentCopy(snap, now);
    if s.store.Update(sent, snap.version).Some? {
      ClaimWon(s, w, snap, sent, next);
    } else {
      PutKeepsInv(s, w, Idle);
    }
  }

  lemma ClaimWon(s: System, w: nat, snap: ActionCommand, sent: ActionCommand, next: Worker)
    requires Inv(s) && Past(s, snap) && snap.state.Ready? && s.store.Update(sent, snap.version).Some?
    requires sent == SentCopy(snap, sent.lastAttemptAt.Or(Some(0)).value)
    requires HoldsClaim(next) && next.snap == sent.(version := snap.version + 1)
    requires next.RollbackClaimed? ==> Past(s, next.orig) && RollbackPair(next.orig, snap)
    ensures var t := Cas(s, w, snap.version, sent, next); Inv(t) && Grows(s, t)
  {
    var t := s.(store := s.store.Update(sent, snap.version).value);
    UpdateGrows(s, snap, sent);
    assert RecordOk(s, s.store.byId[snap.commandId]);
    UpdateKeepsInv(s, snap, sent);
    ReadyIsUnclaimed(s, snap.commandId);
    if next.RollbackClaimed? { PastGrows(s, t, next.orig); }
    HoldsFreshClaim(t, next);
    PutKeepsInv(t, w, next);
  }

  /** A claim that nobody held and no call has spent. */
  lemma HoldsFreshClaim(t: System, next: Worker)
    requires HoldsClaim(next) && Past(t, next.snap) && t.store.byId[next.snap.commandId] == next.snap && next.snap.attemptCount == 1
    requires forall c <- t.calls :: c.Claim() != next.snap.commandId
    requires next.RollbackClaimed? ==> Past(t, next.orig) && RollbackPair(next.orig, next.snap)
    ensures WorkerOk(t, next)
  {}

  /** What call the holder of a claim makes, and where it leaves the holder. */
  ghost predicate Spends(holder: Worker, c: Call, p: Worker)
    requires HoldsClaim(holder)
  {
    && c == (if holder.Claimed? then ExecuteCall(holder.snap.commandId) else RollbackCall(holder.orig.commandId, holder.snap.commandId))
    && p == (if holder.Claimed? then Executing(holder.snap) else Holding(holder.snap, None))
  }

  lemma CallKeepsWorker(s: System, w: nat, c: Call, p: Worker, v: nat)
    requires Inv(s) && w in s.workers && HoldsClaim(s.workers[w]) && Spends(s.workers[w], c, p) && v in s.workers
    ensures WorkerOk(s.Call(c).Put(w, p), s.Call(c).Put(w, p).workers[v])
  {
    var t := s.Call(c).Put(w, p);
    assert Grows(s, t);
    var q := s.workers[v];
    assert WorkerOk(s, q);
    if !q.Idle? { PastGrows(s, t, q.snap); }
    if v == w {
      assert c in t.calls;
    } else {
      if q.RollbackReady? || q.RollbackClaimed? { PastGrows(s, t, q.orig); }
      assert HoldsClaim(q) ==> q.snap.commandId != c.Claim();
    }
  }

  lemma CallKeepsWorkers(s: System, w: nat, c: Call, p: Worker)
    requires Inv(s) && w in s.workers && HoldsClaim(s.workers[w]) && Spends(s.workers[w], c, p)
    ensures var t := s.Call(c).Put(w, p); Grows(s, t) && OneHolder(t.workers) && forall v <- t.workers :: WorkerOk(t, t.workers[v])
  {
    var t := s.Call(c).Put(w, p);
    forall v <- t.workers
      ensures WorkerOk(t, t.workers[v])
    {
      CallKeepsWorker(s, w, c, p, v);
    }
  }

  lemma CallKeepsCalls(s: System, w: nat, c: Call, p: Worker)
    requires Inv(s) && w in s.workers && HoldsClaim(s.workers[w]) && Spends(s.workers[w], c, p)
    ensures var t := s.Call(c).Put(w, p); CallsOk(t.calls) && forall d <- t.calls :: CallOk(t, d)
  {
    var t := s.Call(c).Put(w, p);
    assert WorkerOk(s, s.workers[w]);
    forall d <- t.calls
      ensures CallOk(t, d)
    {
      assert d in s.calls ==> CallOk(s, d);
    }
    forall i | 0 <= i < |t.calls| && t.calls[i].RollbackCall?
      ensures ExecuteCall(t.calls[i].target) in t.calls[..i]
    {
      assert t.calls[..i] == s.calls[..i];
      if i == |s.calls| {
        assert s.calls[..i] == s.calls;
      }
    }
  }

  /** A provider call spends the caller's claim. */
  lemma CallKeepsInv(s: System, w: nat, c: Call, p: Worker)
    requires Inv(s) && w in s.workers && HoldsClaim(s.workers[w]) && Spends(s.workers[w], c, p)
    ensures Inv(s.Call(c).Put(w, p)) && Grows(s, s.Call(c).Put(w, p))
  {
    var t := s.Call(c).Put(w, p);
    CallKeepsWorkers(s, w, c, p);
    CallKeepsCalls(s, w, c, p);
    forall id <- t.store.byId
      ensures RecordOk(t, t.store.byId[id])
    {
      assert RecordOk(s, s.store.byId[id]);
    }
  }

  lemma CreateKeepsInv(s: System, cmd: ActionCommand)
    requires Inv(s) && Newborn(s.store, cmd)
    ensures var r := s.store.CreateOrGet(cmd);
            Inv(s.(store := r.0)) && Grows(s, s.(store := r.0)) && Past(s.(store := r.0), r.1) && r.1.Key() == cmd.Key()
  {
    var r := s.store.CreateOrGet(cmd);
    var t := s.(store := r.0);
    if cmd.Key() in s.store.byKey {
      assert RecordOk(s, r.1);
    } else {
      assert t.store.Indexed();
      forall id <- t.store.byId
        ensures RecordOk(t, t.store.byId[id])
      {
        assert id in s.store.byId ==> RecordOk(s, s.store.byId[id]);
      }
      StoreKeepsInv(s, t);
    }
  }

  lemma RestartKeepsInv(s: System)
    requires Inv(s)
    ensures var t := s.(store := s.store.MarkRestartUnknown()); Inv(t) && Grows(s, t)
  {
    var t := s.(store := s.store.MarkRestartUnknown());
    forall id <- t.store.byId
      ensures RecordOk(t, t.store.byId[id])
    {
      assert RecordOk(s, s.store.byId[id]);
    }
    StoreKeepsInv(s, t);
  }

  lemma PrepareKeepsInv(s: System, w: nat, cmd: ActionCommand)
    requires Inv(s) && CanPrepare(s, s.At(w), cmd)
    ensures Inv(Prepare(s, w, cmd)) && Grows(s, Prepare(s, w, cmd))
  {
    var p := s.At(w);
    assert WorkerOk(s, p);
    CreateKeepsInv(s, cmd);
    var (store, stored) := s.store.CreateOrGet(cmd);
    PastGrows(s, s.(store := store), p.snap);
    PutKeepsInv(s.(store := store), w, RollbackReady(p.snap, stored));
  }

  /** The steps that only move the worker. */
  lemma MoveKeepsInv(s: System, w: nat, op: Op)
    requires Inv(s) && Step(s, w, op).Some?
    requires op.Read? || op.ExecuteAnswer? || op.AskReconcile? || op.ReconcileAnswer? || op.Crash?
    ensures Inv(Step(s, w, op).value) && Grows(s, Step(s, w, op).value)
  {
    var t := Step(s, w, op).value;
    assert t == s.Put(w, t.workers[w]);
    MovedIsOk(s, w, op, t.workers[w]);
    PutKeepsInv(s, w, t.workers[w]);
    PutGrows(s, s, w, t.workers[w]);
  }

  lemma MovedIsOk(s: System, w: nat, op: Op, p: Worker)
    requires Inv(s) && Step(s, w, op).Some? && Step(s, w, op).value.At(w) == p
    requires op.Read? || op.ExecuteAnswer? || op.AskReconcile? || op.ReconcileAnswer? || op.Crash?
    ensures WorkerOk(s, p) && !HoldsClaim(p)
  {
    assert WorkerOk(s, s.At(w));
    if op.Read? { assert RecordOk(s, s.store.byId[op.id]); }
  }

  lemma SettleStepKeepsInv(s: System, w: nat, state: ActionState, done: Option<int>)
    requires Inv(s) && Step(s, w, Settle(state, done)).Some?
    ensures Inv(Step(s, w, Settle(state, done)).value) && Grows(s, Step(s, w, Settle(state, done)).value)
  {
    var p := s.At(w);
    var learned := if p.Holding? then p.learned else None;
    HeldIsPast(s, w, learned);
    SettleKeepsInv(s, w, p.snap, SettledCopy(p.snap, state, done, learned));
  }

  lemma StepKeepsInv(s: System, w: nat, op: Op)
    requires Inv(s) && Step(s, w, op).Some?
    ensures Inv(Step(s, w, op).value) && Grows(s, Step(s, w, op).value)
  {
    var p := s.At(w);
    match op
    case Create(cmd) => CreateKeepsInv(s, cmd);
    case Claim(now) => ClaimKeepsInv(s, w, now);
    case ClaimRollback(now) => ClaimKeepsInv(s, w, now);
    case Execute => CallKeepsInv(s, w, ExecuteCall(p.snap.commandId), Executing(p.snap));
    case Rollback => CallKeepsInv(s, w, RollbackCall(p.orig.commandId, p.snap.commandId), Holding(p.snap, None));
    case Settle(state, done) => SettleStepKeepsInv(s, w, state, done);
    case PrepareRollback(cmd) => PrepareKeepsInv(s, w, cmd);
    case RestartMark => RestartKeepsInv(s);
    case _ => MoveKeepsInv(s, w, op);
  }

  lemma {:induction false} ReachableInv(ops: seq<(nat, Op)>, s: System)
    requires Reaches(ops, s)
    ensures Inv(s)
  {
    if ops != [] {
      var last := |ops| - 1;
      var before: System :| Reaches(ops[..last], before) && before.store.Indexed()
                            && Step(before, ops[last].0, ops[last].1) == Some(s);
      ReachableInv(ops[..last], before);
      StepKeepsInv(before, ops[last].0, ops[last].1);
    }
  }

  // ---------------------------------------------------------------- the claims

  /** The executions of `id` among the first `n` calls. */
  function ExecutionsIn(calls: seq<Call>, n: nat, id: Id): nat
    requires n <= |calls|
  {
    if n == 0 then 0 else ExecutionsIn(calls, n - 1, id) + (if calls[n - 1] == ExecuteCall(id) then 1 else 0)
  }

  function Executions(calls: seq<Call>, id: Id): nat { ExecutionsIn(calls, |calls|, id) }

  /** The rollbacks of `id` among the first `n` calls. */
  function RollbacksIn(calls: seq<Call>, n: nat, id: Id): nat
    requires n <= |calls|
  {
    if n == 0 then 0
    else RollbacksIn(calls, n - 1, id) + (if calls[n - 1].RollbackCall? && calls[n - 1].target == id then 1 else 0)
  }

  function Rollbacks(calls: seq<Call>, id: Id): nat { RollbacksIn(calls, |calls|, id) }

  lemma {:induction false} ExecutionsAtMostOne(calls: seq<Call>, n: nat, id: Id)
    requires CallsOk(calls) && n <= |calls|
    ensures ExecutionsIn(calls, n, id) <= 1
    ensures ExecutionsIn(calls, n, id) == 1 <==> exists i :: 0 <= i < n && calls[i] == ExecuteCall(id)
  {
    if n > 0 {
      ExecutionsAtMostOne(calls, n - 1, id);
      if calls[n - 1] == ExecuteCall(id) {
        assert forall i :: 0 <= i < n - 1 ==> calls[i].Claim() != calls[n - 1].Claim();
      }
    }
  }

  /** Two rollback calls for one target would spend the same claim. */
  lemma OneRollbackCall(s: System, i: nat, j: nat)
    requires Inv(s) && i < |s.calls| && j < |s.calls| && s.calls[i].RollbackCall? && s.calls[j].RollbackCall?
    requires s.calls[i].target == s.calls[j].target
    ensures i == j
  {
    assert CallOk(s, s.calls[i]) && CallOk(s, s.calls[j]);
  }

  /** All rollbacks of one command go through the same rollback command, whose claim is spent once. */
  lemma {:induction false} RollbacksAtMostOne(s: System, n: nat, id: Id)
    requires Inv(s) && n <= |s.calls|
    ensures RollbacksIn(s.calls, n, id) <= 1
    ensures RollbacksIn(s.calls, n, id) == 1 ==> exists i :: 0 <= i < n && s.calls[i].RollbackCall? && s.calls[i].target == id
  {
    if n > 0 {
      RollbacksAtMostOne(s, n - 1, id);
      var c := s.calls[n - 1];
      if c.RollbackCall? && c.target == id {
        if RollbacksIn(s.calls, n - 1, id) == 1 {
          var i :| 0 <= i < n - 1 && s.calls[i].RollbackCall? && s.calls[i].target == id;
          OneRollbackCall(s, i, n - 1);
          assert false;
        }
      }
    }
  }

  /** In every reachable state: rollbacks <= executions <= attempts <= 1 for every command, the one
      rollback comes after the one execution, and a command still READY has had neither. */
  lemma AtMostOnce(ops: seq<(nat, Op)>, s: System, id: Id)
    requires Reaches(ops, s) && id in s.store.byId
    ensures Rollbacks(s.calls, id) <= Executions(s.calls, id) <= s.store.byId[id].attemptCount <= 1
    ensures s.store.byId[id].state.Ready? ==> Executions(s.calls, id) == 0
    ensures s.store.byId[id].providerResourceId.Some? ==> Executions(s.calls, id) == 1
    ensures forall i :: 0 <= i < |s.calls| && s.calls[i].RollbackCall? && s.calls[i].target == id ==>
              ExecuteCall(id) in s.calls[..i]
  {
    ReachableInv(ops, s);
    assert RecordOk(s, s.store.byId[id]);
    ExecutionsAtMostOne(s.calls, |s.calls|, id);
    RollbacksAtMostOne(s, |s.calls|, id);
    if ExecuteCall(id) in s.calls {
      assert CallOk(s, ExecuteCall(id));
    }
    if Rollbacks(s.calls, id) == 1 {
      var i :| 0 <= i < |s.calls| && s.calls[i].RollbackCall? && s.calls[i].target == id;
    }
  }
}
