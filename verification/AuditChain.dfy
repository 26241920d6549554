/** The append-only audit history: records chained by their hashes, shared by several writers (memory.py). */
module AuditChain {
  import opened Options
  import opened DurableCore

  /** The hashed part of a record: its checkpoint identity and everything else it says. */
  datatype Body = Body(checkpoint: Id, content: Id)

  /** SHA-256 over the canonical text and the previous hash, taken to be injective. */
  datatype Digest = Digest(body: Body, previous: Option<Digest>)

  datatype Record = Record(body: Body, previous: Option<Digest>, hash: Option<Digest>)

  function HeadOf(records: seq<Record>): Option<Digest> { if records == [] then None else records[|records| - 1].hash }

  /** `model_copy` with the previous hash and the canonical hash over it. */
  function Chained(body: Body, records: seq<Record>): Record {
    Record(body, HeadOf(records), Some(Digest(body, HeadOf(records))))
  }

  /** What `verify_audit_chain` accepts. */
  ghost predicate ValidChain(records: seq<Record>) {
    records == [] ||
    (&& ValidChain(records[..|records| - 1])
     && records[|records| - 1] == Chained(records[|records| - 1].body, records[..|records| - 1]))
  }

  ghost predicate UniqueCheckpoints(records: seq<Record>) {
    forall i, j :: 0 <= i < j < |records| ==> records[i].body.checkpoint != records[j].body.checkpoint
  }

  predicate Holds(records: seq<Record>, checkpoint: Id) { exists r <- records :: r.body.checkpoint == checkpoint }

  // ---------------------------------------------------------------- chains

  /** Two valid chains with the same head are equal, record for record. */
  lemma {:induction false} EqualHeads(a: seq<Record>, b: seq<Record>)
    requires ValidChain(a) && ValidChain(b) && HeadOf(a) == HeadOf(b)
    ensures a == b
    decreases |a|
  {
    if a != [] && b != [] {
      EqualHeads(a[..|a| - 1], b[..|b| - 1]);
      assert a == a[..|a| - 1] + [a[|a| - 1]] && b == b[..|b| - 1] + [b[|b| - 1]];
    }
  }

  lemma {:induction false} PrefixIsValid(records: seq<Record>, n: nat)
    requires ValidChain(records) && n <= |records|
    ensures ValidChain(records[..n])
    decreases |records|
  {
    if n < |records| {
      PrefixIsValid(records[..|records| - 1], n);
      assert records[..|records| - 1][..n] == records[..n];
    } else {
      assert records[..n] == records;
    }
  }

  lemma RecordAt(records: seq<Record>, n: nat)
    requires ValidChain(records) && n < |records|
    ensures ValidChain(records[..n]) && records[n] == Chained(records[n].body, records[..n])
  {
    PrefixIsValid(records, n + 1);
    assert records[..n + 1][..n] == records[..n];
  }

  // ---------------------------------------------------------------- the shared repository

  datatype AppendResult = Stored(record: Record) | TailConflict | CheckpointConflict

  /** `append_record`, one serialized transaction. */
  function Appended(records: seq<Record>, r: Record): (seq<Record>, AppendResult) {
    if Holds(records, r.body.checkpoint) then (records, if r in records then Stored(r) else CheckpointConflict)
    else if HeadOf(records) != r.previous then (records, TailConflict)
    else (records + [r], Stored(r))
  }

  /** A record found in the shared history stands where the writer's list ends. */
  lemma FoundAtTail(shared: seq<Record>, local: seq<Record>, body: Body)
    requires ValidChain(shared) && local <= shared && Chained(body, local) in shared
    ensures |local| < |shared| && shared[|local|] == Chained(body, local)
  {
    PrefixIsValid(shared, |local|);
    var p :| 0 <= p < |shared| && shared[p] == Chained(body, local);
    RecordAt(shared, p);
    assert HeadOf(shared[..p]) == shared[p].previous == HeadOf(local) && local == shared[..|local|];
    EqualHeads(shared[..p], local);
  }

  /** A tail that matches is the whole of the writer's list. */
  lemma SameTail(shared: seq<Record>, local: seq<Record>)
    requires ValidChain(shared) && local <= shared && HeadOf(shared) == HeadOf(local)
    ensures shared == local
  {
    PrefixIsValid(shared, |local|);
    assert local == shared[..|local|];
    EqualHeads(shared, local);
  }

  lemma ExtendValid(records: seq<Record>, body: Body)
    requires ValidChain(records) && UniqueCheckpoints(records) && !Holds(records, body.checkpoint)
    ensures ValidChain(records + [Chained(body, records)]) && UniqueCheckpoints(records + [Chained(body, records)])
  {
    assert (records + [Chained(body, records)])[..|records|] == records;
  }

  /** A record that a writer chained to its own tail extends its list along the shared history. */
  ghost predicate Extends(shared: seq<Record>, local: seq<Record>, body: Body, after: seq<Record>,
                          result: AppendResult) {
    && ValidChain(after) && UniqueCheckpoints(after) && shared <= after
    && (result.Stored? ==> local + [result.record] <= after && result.record == Chained(body, local))
    && (after != shared ==> local == shared && after == local + [Chained(body, local)])
    && (result.TailConflict? ==> local != shared)
  }

  lemma AppendExtends(shared: seq<Record>, local: seq<Record>, body: Body)
    requires ValidChain(shared) && UniqueCheckpoints(shared) && local <= shared && !Holds(local, body.checkpoint)
    ensures var (after, result) := Appended(shared, Chained(body, local)); Extends(shared, local, body, after, result)
  {
    if Holds(shared, body.checkpoint) {
      KnownExtends(shared, local, body);
    } else if HeadOf(shared) == HeadOf(local) {
      TailExtends(shared, local, body);
    }
  }

  lemma KnownExtends(shared: seq<Record>, local: seq<Record>, body: Body)
    requires ValidChain(shared) && UniqueCheckpoints(shared) && local <= shared && !Holds(local, body.checkpoint)
    requires Holds(shared, body.checkpoint)
    ensures var (after, result) := Appended(shared, Chained(body, local)); Extends(shared, local, body, after, result)
  {
    if Chained(body, local) in shared { FoundAtTail(shared, local, body); }
  }

  lemma TailExtends(shared: seq<Record>, local: seq<Record>, body: Body)
    requires ValidChain(shared) && UniqueCheckpoints(shared) && local <= shared && !Holds(local, body.checkpoint)
    requires !Holds(shared, body.checkpoint) && HeadOf(shared) == HeadOf(local)
    ensures var (after, result) := Appended(shared, Chained(body, local)); Extends(shared, local, body, after, result)
  {
    SameTail(shared, local);
    ExtendValid(shared, body);
  }

  lemma PrefixOfPrefix(a: seq<Record>, b: seq<Record>, c: seq<Record>)
    requires a <= b <= c
    ensures a <= c
  {}

  class HistoryRepository {
    var records: seq<Record>

    constructor ()
      ensures records == []
    {
      records := [];
    }

    method AppendRecord(r: Record) returns (result: AppendResult)
      modifies this
      ensures (records, result) == Appended(old(records), r)
      ensures r in old(records) ==> result == Stored(r) && records == old(records)
      ensures r !in old(records) && Holds(old(records), r.body.checkpoint) ==> result == CheckpointConflict && records == old(records)
      ensures !Holds(old(records), r.body.checkpoint) ==>
                var tail := if old(records) == [] then None else old(records)[|old(records)| - 1].hash;
                if r.previous == tail then records == old(records) + [r] && result == Stored(r)
                else records == old(records) && result == TailConflict
    {
      for i := 0 to |records|
        invariant records == old(records)
        invariant forall j :: 0 <= j < i ==> records[j].body.checkpoint != r.body.checkpoint || (records[j] != r && j < i)
        invariant r !in records[..i]
      {
        if records[i] == r { return Stored(r); }
      }
      if Holds(records, r.body.checkpoint) { return CheckpointConflict; }
      if HeadOf(records) != r.previous { return TailConflict; }
      records := records + [r];
      return Stored(r);
    }

    /** What other writers append in the meantime, each chained to the tail it finds; known checkpoints are refused. */
    method OthersAppend(bodies: seq<Body>)
      modifies this
      ensures records == OthersAppended(old(records), bodies)
    {
      for i := 0 to |bodies|
        invariant records == OthersAppended(old(records), bodies[..i])
      {
        assert bodies[..i + 1][..i] == bodies[..i];
        if !Holds(records, bodies[i].checkpoint) {
          var result := AppendRecord(Chained(bodies[i], records));
        }
      }
      assert bodies[..|bodies|] == bodies;
    }
  }

  function OthersAppended(records: seq<Record>, bodies: seq<Body>): seq<Record> {
    if bodies == [] then records
    else
      var before := OthersAppended(records, bodies[..|bodies| - 1]);
      if Holds(before, bodies[|bodies| - 1].checkpoint) then before else before + [Chained(bodies[|bodies| - 1], before)]
  }

  lemma {:induction false} OthersExtend(records: seq<Record>, bodies: seq<Body>)
    requires ValidChain(records) && UniqueCheckpoints(records)
    ensures ValidChain(OthersAppended(records, bodies)) && UniqueCheckpoints(OthersAppended(records, bodies))
            && records <= OthersAppended(records, bodies)
  {
    if bodies != [] {
      var before := OthersAppended(records, bodies[..|bodies| - 1]);
      OthersExtend(records, bodies[..|bodies| - 1]);
      if !Holds(before, bodies[|bodies| - 1].checkpoint) { ExtendValid(before, bodies[|bodies| - 1]); }
    }
  }

  /** The shared history after `n` rounds of appends by others. */
  function AfterRounds(records: seq<Record>, others: nat -> seq<Body>, n: nat): seq<Record> {
    if n == 0 then records else OthersAppended(AfterRounds(records, others, n - 1), others(n - 1))
  }

  lemma NextRound(records: seq<Record>, others: nat -> seq<Body>, n: nat)
    ensures AfterRounds(records, others, n + 1) == OthersAppended(AfterRounds(records, others, n), others(n))
  {}

  // ---------------------------------------------------------------- a writer

  datatype Remembered = Saved | Known | Conflicting | NoStableTail

  /** What one attempt settles; `NoStableTail` when another one is needed. */
  function Judged(result: AppendResult, known: bool): Remembered {
    match result
    case Stored(_) => Saved
    case CheckpointConflict => Conflicting
    case TailConflict => if known then Known else NoStableTail
  }

  /** What one round settles: it adds the record to those of the others, or none; a stale tail is cured by a reload;
      and a record that was committed without the knowledge of its writer is found. */
  ghost predicate Told(shared: seq<Record>, local: seq<Record>, after: seq<Record>, records: seq<Record>, body: Body,
                       bodies: seq<Body>, r: Remembered) {
    var theirs := OthersAppended(shared, bodies);
    && local <= records && (after == theirs || (r.Saved? && after == theirs + [Chained(body, theirs)]))
    && (r.Saved? ==> records != [] && records[|records| - 1].body == body)
    && (r.Known? ==> Holds(records, body.checkpoint))
    && (r.Conflicting? ==> Holds(after, body.checkpoint) && !Holds(records, body.checkpoint))
    && (r.NoStableTail? ==> records == after && |local| < |records| && !Holds(records, body.checkpoint))
    && (Chained(body, local) in shared ==> r == Saved && records == local + [Chained(body, local)] && after == theirs)
  }

  /** What remembering settles.  It adds one record to those of the others, or none; it gives up only after three
      rounds, in which others appended three records or more; and a writer whose append was committed without its
      knowledge gets the stored record back in the first round and adds none. */
  ghost predicate Remembers(shared: seq<Record>, local: seq<Record>, after: seq<Record>, records: seq<Record>,
                            body: Body,
                            others: nat -> seq<Body>, r: Remembered, rounds: nat) {
    var theirs := AfterRounds(shared, others, rounds);
    && local <= records && rounds <= 3 && (after == theirs || (r.Saved? && after == theirs + [Chained(body, theirs)]))
    && (r.Saved? ==> records != [] && records[|records| - 1].body == body)
    && (r.Known? ==> Holds(records, body.checkpoint))
    && (r.Conflicting? ==> Holds(after, body.checkpoint) && !Holds(records, body.checkpoint))
    && (r.NoStableTail? ==> rounds == 3 && |local| + 3 <= |after| && !Holds(after, body.checkpoint))
    && (!Holds(local, body.checkpoint) && Chained(body, local) in shared ==>
        r == Saved && rounds == 1 && records == local + [Chained(body, local)] && after == theirs)
  }

  /** Before attempt `n`: the writer has what others appended in the rounds so far. */
  ghost predicate StillTrying(shared: seq<Record>, local: seq<Record>, after: seq<Record>, records: seq<Record>,
                              body: Body,
                          others: nat -> seq<Body>, n: nat) {
    && after == AfterRounds(shared, others, n) && local <= records && !Holds(records, body.checkpoint) && |local| + n <= |records|
    && if n == 0 then records == local else records == after && Chained(body, local) !in shared
  }

  lemma ToldNext(shared: seq<Record>, local: seq<Record>, before: seq<Record>, known: seq<Record>, after: seq<Record>,
                 records: seq<Record>, body: Body, others: nat -> seq<Body>, n: nat, r: Remembered)
    requires n < 3 && StillTrying(shared, local, before, known, body, others, n) && Told(before, known, after, records, body, others(n), r)
    ensures if r.NoStableTail? then StillTrying(shared, local, after, records, body, others, n + 1)
            else Remembers(shared, local, after, records, body, others, r, n + 1)
  {
    NextRound(shared, others, n);
    PrefixOfPrefix(local, known, records);
  }

  class MemoryStore {
    const repository: HistoryRepository
    var records: seq<Record>

    constructor (repository: HistoryRepository)
      ensures this.repository == repository && records == repository.records
    {
      this.repository := repository;
      records := repository.records;
    }

    /** The local list is a prefix of the shared history, which verifies and repeats no checkpoint. */
    ghost predicate Valid()
      reads this, repository
    {
      ValidChain(repository.records) && UniqueCheckpoints(repository.records) && records <= repository.records
    }

    /** One attempt: the record is chained to the writer's own tail; a conflict with the tail reloads it. */
    method Attempt(body: Body) returns (result: AppendResult)
      requires Valid() && !Holds(records, body.checkpoint)
      modifies this`records, repository
      ensures Valid() && old(records) <= records
      ensures repository.records == old(repository.records)
              || (result.Stored? && repository.records == old(repository.records) + [Chained(body, old(repository.records))])
      ensures result.Stored? ==> records == old(records) + [result.record] && result.record.body == body
      ensures result.TailConflict? ==> records == repository.records && |old(records)| < |records|
      ensures result.CheckpointConflict? ==> records == old(records) && Holds(repository.records, body.checkpoint)
      ensures Chained(body, old(records)) in old(repository.records) ==>
                result == Stored(Chained(body, old(records))) && repository.records == old(repository.records)
    {
      AppendExtends(repository.records, records, body);
      result := repository.AppendRecord(Chained(body, records));
      match result {
        case Stored(stored) => records := records + [stored];
        case TailConflict => records := repository.records;
        case CheckpointConflict =>
      }
    }

    /** What other writers append in the meantime leaves the writer's list a prefix. */
    method Meanwhile(bodies: seq<Body>)
      requires Valid()
      modifies repository
      ensures Valid() && old(repository.records) <= repository.records
              && repository.records == OthersAppended(old(repository.records), bodies)
    {
      OthersExtend(repository.records, bodies);
      ghost var shared := repository.records;
      repository.OthersAppend(bodies);
      PrefixOfPrefix(records, shared, repository.records);
    }

    /** Appends of others, then an attempt, and what it settles. */
    method Round(body: Body, bodies: seq<Body>) returns (r: Remembered)
      requires Valid() && !Holds(records, body.checkpoint)
      modifies this`records, repository
      ensures Valid() && Told(old(repository.records), old(records), repository.records, records, body, bodies, r)
    {
      Meanwhile(bodies);
      var result := Attempt(body);
      r := Judged(result, Holds(records, body.checkpoint));
    }

    /** `remember_incident`; `others(n)` is what other writers append just before attempt `n`. */
    method RememberIncident(body: Body, others: nat -> seq<Body>) returns (r: Remembered, ghost rounds: nat)
      requires Valid()
      modifies this`records, repository
      ensures Valid() && Remembers(old(repository.records), old(records), repository.records, records, body, others, r, rounds)
    {
      rounds := 0;
      ghost var shared, local := repository.records, records;
      if Holds(records, body.checkpoint) { return Known, rounds; }
      for attempt := 0 to 3
        invariant Valid() && rounds == attempt && StillTrying(shared, local, repository.records, records, body, others, attempt)
      {
        ghost var before, known := repository.records, records;
        r := Round(body, others(attempt));
        rounds := rounds + 1;
        ToldNext(shared, local, before, known, repository.records, records, body, others, attempt, r);
        if !r.NoStableTail? { return r, rounds; }
      }
      return NoStableTail, rounds;
    }

    /** `verify_audit_chain`: `None` when the chain verifies, else the index of the first record that does not. */
    method VerifyAuditChain() returns (broken: Option<nat>)
      ensures broken.None? <==> ValidChain(records)
      ensures broken.Some? ==> broken.value < |records| && ValidChain(records[..broken.value]) && !ValidChain(records[..broken.value + 1])
    {
      var previous: Option<Digest> := None;
      for i := 0 to |records|
        invariant ValidChain(records[..i]) && previous == HeadOf(records[..i])
      {
        var record := records[i];
        assert records[..i + 1][..i] == records[..i];
        if record.hash.None? || record.previous != previous || record.hash != Some(Digest(record.body, previous)) {
          if ValidChain(records) { PrefixIsValid(records, i + 1); }
          return Some(i);
        }
        previous := record.hash;
      }
      assert records[..|records|] == records;
      return None;
    }
  }

  // ---------------------------------------------------------------- several writers

  /** A writer between two operations on the shared history. */
  datatype Writer = Writer(loaded: bool, records: seq<Record>, work: Work)

  datatype Work = Idle | Appending(body: Body, attempt: nat) | Reloading(body: Body, attempt: nat)

  datatype System = System(shared: seq<Record>, writers: map<nat, Writer>)
  {
    function At(w: nat): Writer { if w in writers then writers[w] else Writer(false, [], Idle) }
    function Put(w: nat, x: Writer): System { this.(writers := writers[w := x]) }
  }

  /** One operation on the shared history, or one local decision, of writer `w`. */
  datatype Op = Load(fails: bool) | Remember(body: Body) | Append(fate: Fate) | Reload | Restart

  /** What becomes of an append: the writer hears the answer, or it raises, before or after it was committed. */
  datatype Fate = Heard | Lost | Unheard

  function Step(s: System, w: nat, op: Op): System {
    var x := s.At(w);
    match op
    case Load(fails) => if x.loaded then s else s.Put(w, x.(loaded := true, records := if fails then x.records else s.shared))
    case Remember(body) =>
      if x.loaded && x.work.Idle? && !Holds(x.records, body.checkpoint) then s.Put(w, x.(work := Appending(body, 0))) else s
    case Append(fate) =>
      if !x.work.Appending? then s
      else if fate.Lost? then s.Put(w, x.(work := Idle))
      else if fate.Unheard? then s.(shared := Appended(s.shared, Chained(x.work.body, x.records)).0).Put(w, x.(work := Idle))
      else
        var (after, result) := Appended(s.shared, Chained(x.work.body, x.records));
        var y := match result
          case Stored(stored) =>
            x.(records := if Holds(x.records, stored.body.checkpoint) then x.records else x.records + [stored], work := Idle)
          case TailConflict => x.(work := Reloading(x.work.body, x.work.attempt))
          case CheckpointConflict => x.(work := Idle);
        s.(shared := after).Put(w, y)
    case Reload =>
      if !x.work.Reloading? then s
      else
        var again := !Holds(s.shared, x.work.body.checkpoint) && x.work.attempt + 1 < 3;
        s.Put(w, x.(records := s.shared, work := if again then Appending(x.work.body, x.work.attempt + 1) else Idle))
    case Restart => s.Put(w, Writer(false, [], Idle))
  }

  ghost predicate Run(states: seq<System>, ops: seq<(nat, Op)>) {
    && |states| == |ops| + 1 && states[0] == System([], map[])
    && forall i, j :: 0 <= i < j < |states| && j == i + 1 ==> states[j] == Step(states[i], ops[i].0, ops[i].1)
  }

  ghost predicate Inv(s: System) {
    && ValidChain(s.shared) && UniqueCheckpoints(s.shared)
    && forall w <- s.writers ::
         && s.writers[w].records <= s.shared && (!s.writers[w].loaded ==> s.writers[w].work.Idle?)
         && (s.writers[w].work.Appending? ==> !Holds(s.writers[w].records, s.writers[w].work.body.checkpoint))
  }

  /** What is asked of one writer. */
  ghost predicate InOrder(x: Writer, shared: seq<Record>) {
    && x.records <= shared && (!x.loaded ==> x.work.Idle?) && (x.work.Appending? ==> !Holds(x.records, x.work.body.checkpoint))
  }

  /** One writer moves, and the history grows or stays. */
  lemma PutKeepsInv(s: System, after: seq<Record>, w: nat, x: Writer)
    requires Inv(s) && s.shared <= after && ValidChain(after) && UniqueCheckpoints(after) && InOrder(x, after)
    ensures Inv(s.(shared := after).Put(w, x))
  {
    forall v | v in s.writers
      ensures s.writers[v].records <= after
    {
      PrefixOfPrefix(s.writers[v].records, s.shared, after);
    }
  }

  lemma AppendKeepsInv(s: System, w: nat, fate: Fate)
    requires Inv(s) && s.At(w).work.Appending?
    ensures Inv(Step(s, w, Append(fate))) && s.shared <= Step(s, w, Append(fate)).shared
  {
    var x := s.At(w);
    AppendExtends(s.shared, x.records, x.work.body);
    var (after, result) := Appended(s.shared, Chained(x.work.body, x.records));
    PrefixOfPrefix(x.records, s.shared, after);
    PutKeepsInv(s, if fate.Lost? then s.shared else after, w, Step(s, w, Append(fate)).At(w));
  }

  lemma StepKeepsInv(s: System, w: nat, op: Op)
    requires Inv(s)
    ensures Inv(Step(s, w, op)) && s.shared <= Step(s, w, op).shared
  {
    if op.Append? && s.At(w).work.Appending? {
      AppendKeepsInv(s, w, op.fate);
    } else if Step(s, w, op) != s {
      PutKeepsInv(s, s.shared, w, Step(s, w, op).At(w));
    }
  }

  lemma {:induction false} RunInv(states: seq<System>, ops: seq<(nat, Op)>, m: nat, n: nat)
    requires Run(states, ops) && m <= n <= |ops|
    ensures Inv(states[n]) && states[m].shared <= states[n].shared
    decreases n
  {
    if n > 0 {
      RunInv(states, ops, if m < n then m else n - 1, n - 1);
      assert states[n] == Step(states[n - 1], ops[n - 1].0, ops[n - 1].1);
      StepKeepsInv(states[n - 1], ops[n - 1].0, ops[n - 1].1);
    }
  }

  /** Under any interleaving of writers, reloads, failures and restarts: every writer's list is a prefix
      of the shared history, the history only grows, it always verifies, and no checkpoint occurs twice. */
  lemma WritersAgree(states: seq<System>, ops: seq<(nat, Op)>, m: nat, n: nat, w: nat)
    requires Run(states, ops) && m <= n <= |ops|
    ensures states[m].shared <= states[n].shared
    ensures ValidChain(states[n].shared) && UniqueCheckpoints(states[n].shared)
    ensures states[n].At(w).records <= states[n].shared && ValidChain(states[n].At(w).records)
  {
    RunInv(states, ops, m, n);
    PrefixIsValid(states[n].shared, |states[n].At(w).records|);
    assert states[n].At(w).records == states[n].shared[..|states[n].At(w).records|];
  }

  /** An append that is made again after it was committed without the knowledge of its writer, whatever others have
      appended since, gives the writer its record and adds none. */
  lemma UnheardIsStored(states: seq<System>, ops: seq<(nat, Op)>, m: nat, n: nat, w: nat)
    requires Run(states, ops) && m < n < |ops| && ops[m] == (w, Append(Unheard)) && ops[n] == (w, Append(Heard))
    requires states[m].At(w).work.Appending? && states[n].At(w).work.Appending?
    requires states[n].At(w).records == states[m].At(w).records && states[n].At(w).work.body == states[m].At(w).work.body
    requires states[m + 1].shared != states[m].shared
    ensures var mine := Chained(states[m].At(w).work.body, states[m].At(w).records);
            && states[m + 1].shared == states[m].shared + [mine] && states[n + 1].shared == states[n].shared
            && states[n + 1].At(w).records == states[n].At(w).records + [mine] && states[n + 1].At(w).work == Idle
  {
    var mine := Chained(states[m].At(w).work.body, states[m].At(w).records);
    RunInv(states, ops, m + 1, n);
    RunStep(states, ops, m);
    RunStep(states, ops, n);
    assert mine == states[m + 1].shared[|states[m].shared|];
    assert mine in states[n].shared;
    RunInv(states, ops, n, n);
  }

  // ---------------------------------------------------------------- giving up

  /** Writer `w` raises for want of a stable tail: it reloads, finds its checkpoint in no record, and stops. */
  predicate GivesUp(s: System, w: nat, op: Op) {
    op.Reload? && s.At(w).work.Reloading? && Step(s, w, op).At(w).work.Idle? && !Holds(s.shared, s.At(w).work.body.checkpoint)
  }

  /** How far the shared history has run ahead of a writer that began with `n` records. */
  ghost predicate Behind(s: System, w: nat, n: nat, body: Body) {
    && Inv(s) && s.At(w).loaded && !s.At(w).work.Idle? && s.At(w).work.body == body && s.At(w).work.attempt <= 2
    && (s.At(w).work.Appending? ==> n + s.At(w).work.attempt <= |s.At(w).records|)
    && (s.At(w).work.Reloading? ==> n + s.At(w).work.attempt < |s.shared|)
  }

  lemma AppendStaysBehind(s: System, op: Op, w: nat, n: nat, body: Body)
    requires Behind(s, w, n, body) && op.Append? && s.At(w).work.Appending? && !Step(s, w, op).At(w).work.Idle?
    ensures Behind(Step(s, w, op), w, n, body)
  {
    var x := s.At(w);
    AppendKeepsInv(s, w, op.fate);
    AppendExtends(s.shared, x.records, x.work.body);
    var (after, result) := Appended(s.shared, Chained(x.work.body, x.records));
    assert Step(s, w, op) == s.(shared := after).Put(w, x.(work := Reloading(x.work.body, x.work.attempt)));
    assert |x.records| < |s.shared|;
  }

  lemma StaysBehind(s: System, v: nat, op: Op, w: nat, n: nat, body: Body)
    requires Behind(s, w, n, body) && !Step(s, v, op).At(w).work.Idle?
    ensures Behind(Step(s, v, op), w, n, body)
  {
    StepKeepsInv(s, v, op);
    if v == w && op.Append? && s.At(w).work.Appending? { AppendStaysBehind(s, op, w, n, body); }
  }

  lemma BeginsBehind(s: System, w: nat, body: Body)
    requires Inv(s) && s.At(w).work.Idle? && !Step(s, w, Remember(body)).At(w).work.Idle?
    ensures Behind(Step(s, w, Remember(body)), w, |s.At(w).records|, body)
  {
    StepKeepsInv(s, w, Remember(body));
  }

  /** One step, after which the writer is still at work. */
  ghost predicate WorksOn(s: System, t: System, op: (nat, Op), w: nat) {
    Inv(s) && t == Step(s, op.0, op.1) && !t.At(w).work.Idle?
  }

  lemma RunWorksOn(states: seq<System>, ops: seq<(nat, Op)>, i: nat, w: nat)
    requires Run(states, ops) && i < |ops| && !states[i + 1].At(w).work.Idle?
    ensures WorksOn(states[i], states[i + 1], ops[i], w)
  {
    RunInv(states, ops, i, i);
    RunStep(states, ops, i);
  }

  lemma RunStep(states: seq<System>, ops: seq<(nat, Op)>, i: nat)
    requires Run(states, ops) && i < |ops|
    ensures states[i + 1] == Step(states[i], ops[i].0, ops[i].1)
  {}

  lemma {:induction false} RunBehind(states: seq<System>, ops: seq<(nat, Op)>, m: nat, k: nat, w: nat, body: Body)
    requires m < k <= |ops| < |states| && ops[m] == (w, Remember(body)) && states[m].At(w).work.Idle?
    requires forall i, j :: m <= i < j <= k && j == i + 1 ==> WorksOn(states[i], states[j], ops[i], w)
    ensures Behind(states[k], w, |states[m].At(w).records|, body)
    decreases k
  {
    var i := k - 1;
    assert WorksOn(states[i], states[k], ops[i], w);
    if m < i {
      RunBehind(states, ops, m, i, w, body);
      WorkStaysBehind(states[i], states[k], ops[i], w, |states[m].At(w).records|, body);
    } else {
      WorkBeginsBehind(states[m], states[k], w, body);
    }
  }

  lemma WorkStaysBehind(s: System, t: System, op: (nat, Op), w: nat, n: nat, body: Body)
    requires Behind(s, w, n, body) && WorksOn(s, t, op, w)
    ensures Behind(t, w, n, body)
  {
    StaysBehind(s, op.0, op.1, w, n, body);
  }

  lemma WorkBeginsBehind(s: System, t: System, w: nat, body: Body)
    requires s.At(w).work.Idle? && WorksOn(s, t, (w, Remember(body)), w)
    ensures Behind(t, w, |s.At(w).records|, body)
  {
    BeginsBehind(s, w, body);
  }

  /** With any number of writers: one that gives up found three records of others that it did not know when it began,
      and its own checkpoint is still in no record. */
  lemma ThirdConflictNeedsThree(states: seq<System>, ops: seq<(nat, Op)>, m: nat, k: nat, w: nat, body: Body)
    requires Run(states, ops) && m < k < |ops| && ops[m] == (w, Remember(body)) && states[m].At(w).work.Idle?
    requires (forall j :: m < j <= k ==> !states[j].At(w).work.Idle?) && GivesUp(states[k], w, ops[k].1)
    ensures states[k].At(w).work.attempt == 2 && |states[m].At(w).records| + 3 <= |states[k].shared|
    ensures states[m].At(w).records <= states[k].shared && !Holds(states[k].shared, body.checkpoint)
  {
    forall i, j | m <= i < j <= k && j == i + 1
      ensures WorksOn(states[i], states[j], ops[i], w)
    {
      RunWorksOn(states, ops, i, w);
    }
    RunBehind(states, ops, m, k, w, body);
    WritersAgree(states, ops, m, m, w);
    WritersAgree(states, ops, m, k, w);
    PrefixOfPrefix(states[m].At(w).records, states[m].shared, states[k].shared);
  }
}
