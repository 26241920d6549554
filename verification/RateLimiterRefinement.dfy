/** The bounded limiter against the naive one that keeps every acceptance for ever. */
module RateLimiterRefinement {
  import opened DurableCore
  import opened RateLimiter

  // ---------------------------------------------------------------- the naive limiter

  function LogOf(log: map<Id, seq<int>>, key: Id): seq<int> { if key in log then log[key] else [] }

  /** How many of the first `n` times are later than `cutoff`. */
  function CountIn(times: seq<int>, n: nat, cutoff: int): nat
    requires n <= |times|
  {
    if n == 0 then 0 else CountIn(times, n - 1, cutoff) + (if cutoff < times[n - 1] then 1 else 0)
  }

  function CountSince(times: seq<int>, cutoff: int): nat { CountIn(times, |times|, cutoff) }

  /** Fewer than `limit` acceptances of the key in the window that ends now. */
  predicate NaiveAllows(log: map<Id, seq<int>>, key: Id, now: int, b: Bounds) {
    CountSince(LogOf(log, key), now - b.window) < b.limit
  }

  function Logged(log: map<Id, seq<int>>, key: Id, now: int, allowed: bool): map<Id, seq<int>> {
    if allowed then log[key := LogOf(log, key) + [now]] else log
  }

  /** The keys with an acceptance later than `cutoff`. */
  function LiveKeys(log: map<Id, seq<int>>, cutoff: int): set<Id> { set k | k in log && 0 < CountSince(log[k], cutoff) }

  /** The keys that are live at a call fit into the table, with its own key. */
  predicate Fits(log: map<Id, seq<int>>, key: Id, now: int, b: Bounds) {
    |LiveKeys(log, now - b.window) - {key}| < b.maxKeys
  }

  // ---------------------------------------------------------------- sequences of times

  ghost predicate Ascending(xs: seq<int>) { forall i, j :: 0 <= i < j < |xs| ==> xs[i] <= xs[j] }

  lemma {:induction false} FirstAfterSplits(xs: seq<int>, i: nat, cutoff: int)
    requires i <= |xs|
    ensures var p := FirstAfter(xs, i, cutoff); (forall k :: i <= k < p ==> xs[k] <= cutoff) && (p < |xs| ==> cutoff < xs[p])
    decreases |xs| - i
  {
    if i < |xs| && xs[i] <= cutoff { FirstAfterSplits(xs, i + 1, cutoff); }
  }

  lemma TrimmedSplits(xs: seq<int>, cutoff: int) returns (p: nat)
    ensures p <= |xs| && Trimmed(xs, cutoff) == xs[p..] && (forall i :: 0 <= i < p ==> xs[i] <= cutoff)
            && (p < |xs| ==> cutoff < xs[p])
  {
    FirstAfterSplits(xs, 0, cutoff);
    p := FirstAfter(xs, 0, cutoff);
  }

  lemma {:induction false} CountBoth(xs: seq<int>, n: nat, p: nat, cutoff: int)
    requires n <= |xs| && (forall i :: 0 <= i < p && i < n ==> xs[i] <= cutoff) && (forall i :: p <= i < n ==> cutoff < xs[i])
    ensures CountIn(xs, n, cutoff) == if n <= p then 0 else n - p
  {
    if n > 0 { CountBoth(xs, n - 1, p, cutoff); }
  }

  lemma CountIsTrimmed(xs: seq<int>, cutoff: int)
    requires Ascending(xs)
    ensures CountSince(xs, cutoff) == |Trimmed(xs, cutoff)|
  {
    var p := TrimmedSplits(xs, cutoff);
    CountBoth(xs, |xs|, p, cutoff);
  }

  lemma {:induction false} CountAtLeast(xs: seq<int>, n: nat, p: nat, cutoff: int)
    requires n <= |xs| && forall i :: p <= i < n ==> cutoff < xs[i]
    ensures n - p <= CountIn(xs, n, cutoff)
  {
    if n > 0 { CountAtLeast(xs, n - 1, p, cutoff); }
  }

  ghost predicate Suffix(a: seq<int>, b: seq<int>) {
    |a| <= |b| && forall i :: 0 <= i < |a| ==> a[i] == b[|b| - |a| + i]
  }

  // ---------------------------------------------------------------- the table against the log

  /** Under every key the table holds the end of what the log holds since `cutoff`, or exactly that. */
  ghost predicate Covers(entries: seq<Entry>, log: map<Id, seq<int>>, cutoff: int, exact: bool) {
    UniqueKeys(entries) && forall k :: CoversKey(TimesOf(entries, k), LogOf(log, k), cutoff, exact)
  }

  /** `stored` is the end of `whole`; exactly when nothing later than `cutoff` is missing. */
  ghost predicate CoversKey(stored: seq<int>, whole: seq<int>, cutoff: int, exact: bool) {
    Ascending(whole) && Suffix(stored, whole) && (exact ==> forall i :: 0 <= i < |whole| - |stored| ==> whole[i] <= cutoff)
  }

  lemma {:induction false} TimesAreStored(entries: seq<Entry>, key: Id)
    ensures !HasKey(entries, key) ==> TimesOf(entries, key) == []
    ensures HasKey(entries, key) ==> Entry(key, TimesOf(entries, key)) in entries
  {
    if entries != [] {
      TimesAreStored(entries[..|entries| - 1], key);
      assert entries == entries[..|entries| - 1] + [entries[|entries| - 1]];
    }
  }

  lemma StoredIsTimes(entries: seq<Entry>, e: Entry)
    requires UniqueKeys(entries) && e in entries
    ensures TimesOf(entries, e.key) == e.times
  {
    TimesAreStored(entries, e.key);
  }

  /** Expiry drops the keys whose times are all old. */
  lemma UnexpiredTimes(entries: seq<Entry>, cutoff: int, key: Id)
    requires UniqueKeys(entries)
    ensures var live := Unexpired(entries, cutoff);
            && (HasKey(live, key) <==> HasKey(entries, key) && Live(Entry(key, TimesOf(entries, key)), cutoff))
            && TimesOf(live, key) == if HasKey(live, key) then TimesOf(entries, key) else []
  {
    var live := Unexpired(entries, cutoff);
    UnexpiredKeeps(entries, cutoff);
    TimesAreStored(entries, key);
    TimesAreStored(live, key);
    var e := Entry(key, TimesOf(entries, key));
    UnexpiredMembers(entries, cutoff, e);
    if HasKey(live, key) {
      var x := Entry(key, TimesOf(live, key));
      UnexpiredMembers(entries, cutoff, x);
      StoredIsTimes(entries, x);
    }
  }

  // ---------------------------------------------------------------- one call

  lemma KeptTimes(entries: seq<Entry>, key: Id, now: int, b: Bounds, k: Id)
    requires b.Valid() && UniqueKeys(entries)
    ensures var live := Unexpired(entries, now - b.window); var kept := Kept(entries, key, now, b);
            && UniqueKeys(kept)
            && (TimesOf(kept, k) == TimesOf(live, k) || TimesOf(kept, k) == [])
            && ((k == key || |live| < b.maxKeys || HasKey(live, key)) ==> TimesOf(kept, k) == TimesOf(live, k))
  {
    var live := Unexpired(entries, now - b.window);
    var kept := Kept(entries, key, now, b);
    UnexpiredKeeps(entries, now - b.window);
    EvictedKeeps(live, b.maxKeys);
    TimesAreStored(live, k);
    TimesAreStored(kept, k);
    if HasKey(kept, k) { StoredIsTimes(live, Entry(k, TimesOf(kept, k))); }
  }

  lemma MovedTimes(kept: seq<Entry>, key: Id, times: seq<int>, k: Id)
    requires UniqueKeys(kept)
    ensures UniqueKeys(Moved(kept, key, times)) && TimesOf(Moved(kept, key, times), k) == if k == key then times else TimesOf(kept, k)
  {
    var rest := Without(kept, key);
    var after := Moved(kept, key, times);
    WithoutKeeps(kept, key);
    assert after[..|rest|] == rest;
    if k != key {
      TimesAreStored(rest, k);
      TimesAreStored(kept, k);
      WithoutMembers(kept, key, Entry(k, TimesOf(kept, k)));
      if HasKey(rest, k) {
        WithoutMembers(kept, key, Entry(k, TimesOf(rest, k)));
        StoredIsTimes(kept, Entry(k, TimesOf(rest, k)));
      }
    }
  }

  /** What one call leaves under key `k`, and how it decides. */
  ghost predicate Effect(entries: seq<Entry>, after: seq<Entry>, allowed: bool, key: Id, now: int, b: Bounds, k: Id) {
    var cutoff := now - b.window;
    var live := Unexpired(entries, cutoff);
    && (k == key ==> TimesOf(after, k) == Trimmed(TimesOf(live, k), cutoff) + (if allowed then [now] else []))
    && (k == key ==> (allowed <==> |Trimmed(TimesOf(live, k), cutoff)| < b.limit))
    && (k != key ==> TimesOf(after, k) == TimesOf(live, k) || TimesOf(after, k) == [])
    && (k != key && HasRoom(entries, key, now, b) ==> TimesOf(after, k) == TimesOf(live, k))
  }

  /** The live keys are in the table already, or leave room for one more. */
  predicate HasRoom(entries: seq<Entry>, key: Id, now: int, b: Bounds) {
    var live := Unexpired(entries, now - b.window); HasKey(live, key) || |live| < b.maxKeys
  }

  lemma AllowEffect(entries: seq<Entry>, key: Id, now: int, b: Bounds, k: Id)
    requires b.Valid() && UniqueKeys(entries)
    ensures var r := Allow(entries, key, now, b); UniqueKeys(r.0) && Effect(entries, r.0, r.1, key, now, b, k)
  {
    KeptTimes(entries, key, now, b, k);
    KeptTimes(entries, key, now, b, key);
    var kept := Kept(entries, key, now, b);
    var times := Trimmed(TimesOf(kept, key), now - b.window);
    var r := Allow(entries, key, now, b);
    if r.1 { MovedEffect(entries, kept, times + [now], key, now, b, k); } else { MovedEffect(entries, kept, times, key, now, b, k); }
  }

  /** The part of the effect that concerns the table. */
  lemma MovedEffect(entries: seq<Entry>, kept: seq<Entry>, times: seq<int>, key: Id, now: int, b: Bounds, k: Id)
    requires UniqueKeys(kept)
    requires var live := Unexpired(entries, now - b.window);
             && (TimesOf(kept, k) == TimesOf(live, k) || TimesOf(kept, k) == [])
             && (HasRoom(entries, key, now, b) ==> TimesOf(kept, k) == TimesOf(live, k))
    ensures UniqueKeys(Moved(kept, key, times)) && (k == key ==> TimesOf(Moved(kept, key, times), k) == times)
    ensures k != key ==> TimesOf(Moved(kept, key, times), k) in {TimesOf(Unexpired(entries, now - b.window), k), []}
    ensures k != key && HasRoom(entries, key, now, b) ==>
              TimesOf(Moved(kept, key, times), k) == TimesOf(Unexpired(entries, now - b.window), k)
  {
    MovedTimes(kept, key, times, k);
  }

  /** No acceptance on record is later than `now`. */
  ghost predicate UpTo(log: map<Id, seq<int>>, now: int) {
    forall k, i :: 0 <= i < |LogOf(log, k)| ==> LogOf(log, k)[i] <= now
  }

  /** The called key: what the call counts, against its log. */
  lemma OwnCount(live: seq<int>, whole: seq<int>, cutoff: int, exact: bool)
    requires CoversKey(live, whole, cutoff, exact)
    ensures var kept := Trimmed(live, cutoff);
            && |kept| <= CountSince(whole, cutoff) && (exact ==> |kept| == CountSince(whole, cutoff))
            && CoversKey(kept, whole, cutoff, exact)
  {
    var p := TrimmedSplits(live, cutoff);
    var q := |whole| - |live| + p;
    if p < |live| { assert live[p] == whole[q]; }
    CountAtLeast(whole, |whole|, q, cutoff);
    if exact {
      forall i | 0 <= i < q
        ensures whole[i] <= cutoff
      {
        assert |whole| - |live| <= i ==> live[i - (|whole| - |live|)] == whole[i];
      }
      CountBoth(whole, |whole|, q, cutoff);
    }
  }

  /** And what it stores. */
  lemma OwnAppend(kept: seq<int>, whole: seq<int>, cutoff: int, now: int, exact: bool)
    requires CoversKey(kept, whole, cutoff, exact) && forall i :: 0 <= i < |whole| ==> whole[i] <= now
    ensures CoversKey(kept + [now], whole + [now], cutoff, exact)
  {}

  /** Expiry at a later cutoff. */
  lemma LiveCovers(entries: seq<Entry>, whole: seq<int>, c0: int, cutoff: int, exact: bool, k: Id)
    requires UniqueKeys(entries) && CoversKey(TimesOf(entries, k), whole, c0, exact) && c0 <= cutoff
    ensures CoversKey(TimesOf(Unexpired(entries, cutoff), k), whole, cutoff, exact)
  {
    LiveTimes(entries, cutoff, k);
    ExpiredCovers(TimesOf(entries, k), whole, c0, cutoff, exact);
  }

  /** Expiry keeps the times of a key or drops all of them. */
  lemma LiveTimes(entries: seq<Entry>, cutoff: int, k: Id)
    requires UniqueKeys(entries)
    ensures TimesOf(Unexpired(entries, cutoff), k) ==
            if Live(Entry([], TimesOf(entries, k)), cutoff) then TimesOf(entries, k) else []
  {
    UnexpiredTimes(entries, cutoff, k);
    TimesAreStored(entries, k);
  }

  lemma ExpiredCovers(stored: seq<int>, whole: seq<int>, c0: int, cutoff: int, exact: bool)
    requires CoversKey(stored, whole, c0, exact) && c0 <= cutoff
    ensures CoversKey(stored, whole, cutoff, exact)
    ensures !Live(Entry([], stored), cutoff) ==> CoversKey([], whole, cutoff, exact)
  {
    if stored != [] { assert stored[|stored| - 1] == whole[|whole| - 1]; }
  }

  /** The log of the called key after the call. */
  function Grown(whole: seq<int>, now: int, allowed: bool): seq<int> { if allowed then whole + [now] else whole }

  /** The called key: `live` is what expiry leaves of it, `after` what the call leaves. */
  lemma OwnKeyCovers(live: seq<int>, after: seq<int>, allowed: bool, whole: seq<int>, cutoff: int, exact: bool,
                     now: int, limit: nat)
    requires CoversKey(live, whole, cutoff, exact) && cutoff < now && (forall i :: 0 <= i < |whole| ==> whole[i] <= now)
    requires after == Grown(Trimmed(live, cutoff), now, allowed) && (allowed <==> |Trimmed(live, cutoff)| < limit)
    ensures (!allowed ==> limit <= CountSince(whole, cutoff)) && (exact ==> (allowed <==> CountSince(whole, cutoff) < limit))
    ensures CoversKey(after, Grown(whole, now, allowed), cutoff, exact)
  {
    OwnCount(live, whole, cutoff, exact);
    if allowed { OwnAppend(Trimmed(live, cutoff), whole, cutoff, now, exact); }
  }

  lemma LogGrows(log: map<Id, seq<int>>, key: Id, now: int, allowed: bool, k: Id)
    ensures LogOf(Logged(log, key, now, allowed), k) == if k == key then Grown(LogOf(log, k), now, allowed) else LogOf(log, k)
  {}

  /** One key of the table after a call: `stored` before it, `live` after expiry, `after` in the end. */
  lemma KeyCovers(live: seq<int>, after: seq<int>, whole: seq<int>, cutoff: int, exact: bool, kept: bool)
    requires CoversKey(live, whole, cutoff, exact) && (after == live || (after == [] && !kept))
    ensures CoversKey(after, whole, cutoff, exact && kept)
  {}

  lemma LoggedUpTo(log: map<Id, seq<int>>, key: Id, now: int, allowed: bool)
    requires UpTo(log, now)
    ensures UpTo(Logged(log, key, now, allowed), now)
  {
    var log1 := Logged(log, key, now, allowed);
    forall k, i | 0 <= i < |LogOf(log1, k)|
      ensures LogOf(log1, k)[i] <= now
    {
      assert i < |LogOf(log, k)| ==> LogOf(log1, k)[i] == LogOf(log, k)[i];
    }
  }

  /** A refusal is always right, and the decision is exactly the naive one as long as no live key was ever evicted. */
  lemma AllowDecides(entries: seq<Entry>, log: map<Id, seq<int>>, c0: int, exact: bool, key: Id, now: int, b: Bounds)
    requires b.Valid() && Covers(entries, log, c0, exact) && c0 <= now - b.window && UpTo(log, now)
    ensures var allowed := Allow(entries, key, now, b).1;
            (!allowed ==> !NaiveAllows(log, key, now, b)) && (exact ==> (allowed <==> NaiveAllows(log, key, now, b)))
  {
    var (after, allowed) := Allow(entries, key, now, b);
    AllowEffect(entries, key, now, b, key);
    assert CoversKey(TimesOf(entries, key), LogOf(log, key), c0, exact);
    EffectDecides(entries, after, allowed, LogOf(log, key), c0, exact, key, now, b);
  }

  lemma EffectDecides(entries: seq<Entry>, after: seq<Entry>, allowed: bool, whole: seq<int>, c0: int, exact: bool,
                      key: Id, now: int, b: Bounds)
    requires b.Valid() && UniqueKeys(entries) && CoversKey(TimesOf(entries, key), whole, c0, exact) && c0 <= now - b.window
    requires Effect(entries, after, allowed, key, now, b, key)
    ensures (!allowed ==> b.limit <= CountSince(whole, now - b.window))
            && (exact ==> (allowed <==> CountSince(whole, now - b.window) < b.limit))
  {
    LiveCovers(entries, whole, c0, now - b.window, exact, key);
    OwnCount(TimesOf(Unexpired(entries, now - b.window), key), whole, now - b.window, exact);
  }

  /** The effect of a call on one key, against the log of the key. */
  lemma EffectCovers(entries: seq<Entry>, after: seq<Entry>, allowed: bool, whole: seq<int>, c0: int, exact: bool,
                     key: Id, now: int, b: Bounds, still: bool, k: Id)
    requires b.Valid() && UniqueKeys(entries) && CoversKey(TimesOf(entries, k), whole, c0, exact) && c0 <= now - b.window
    requires (forall i :: 0 <= i < |whole| ==> whole[i] <= now) && (still ==> exact && HasRoom(entries, key, now, b))
    requires Effect(entries, after, allowed, key, now, b, k)
    ensures CoversKey(TimesOf(after, k), if k == key then Grown(whole, now, allowed) else whole, now - b.window, still)
  {
    var live := TimesOf(Unexpired(entries, now - b.window), k);
    LiveCovers(entries, whole, c0, now - b.window, exact, k);
    if k == key {
      OwnKeyCovers(live, TimesOf(after, k), allowed, whole, now - b.window, exact, now, b.limit);
    } else {
      KeyCovers(live, TimesOf(after, k), whole, now - b.window, exact, still);
    }
  }

  lemma AllowCoversKey(entries: seq<Entry>, log: map<Id, seq<int>>, c0: int, exact: bool, key: Id, now: int, b: Bounds,
                       still: bool, k: Id)
    requires b.Valid() && UniqueKeys(entries) && CoversKey(TimesOf(entries, k), LogOf(log, k), c0, exact)
    requires c0 <= now - b.window && UpTo(log, now) && (still ==> exact && HasRoom(entries, key, now, b))
    ensures var r := Allow(entries, key, now, b);
            UniqueKeys(r.0) && CoversKey(TimesOf(r.0, k), LogOf(Logged(log, key, now, r.1), k), now - b.window, still)
  {
    var (after, allowed) := Allow(entries, key, now, b);
    AllowEffect(entries, key, now, b, k);
    LogGrows(log, key, now, allowed, k);
    EffectCovers(entries, after, allowed, LogOf(log, k), c0, exact, key, now, b, still, k);
  }

  /** What the table says of the log survives a call, exactly so when there is room for the live keys. */
  lemma AllowCovers(entries: seq<Entry>, log: map<Id, seq<int>>, c0: int, exact: bool, key: Id, now: int, b: Bounds,
                    still: bool, c1: int)
    requires b.Valid() && Covers(entries, log, c0, exact) && c0 <= now - b.window == c1 && UpTo(log, now)
    requires still ==> exact && HasRoom(entries, key, now, b)
    ensures var r := Allow(entries, key, now, b); Covers(r.0, Logged(log, key, now, r.1), c1, still)
  {
    var r := Allow(entries, key, now, b);
    AllowCoversKey(entries, log, c0, exact, key, now, b, still, key);
    forall k
      ensures CoversKey(TimesOf(r.0, k), LogOf(Logged(log, key, now, r.1), k), c1, still)
    {
      assert CoversKey(TimesOf(entries, k), LogOf(log, k), c0, exact);
      AllowCoversKey(entries, log, c0, exact, key, now, b, still, k);
    }
  }

  // ---------------------------------------------------------------- room

  function KeysOf(entries: seq<Entry>): set<Id> { set e | e in entries :: e.key }

  lemma {:induction false} KeysCounted(entries: seq<Entry>)
    requires UniqueKeys(entries)
    ensures |KeysOf(entries)| == |entries|
  {
    if entries != [] {
      var rest, last := entries[..|entries| - 1], entries[|entries| - 1];
      KeysCounted(rest);
      assert entries == rest + [last];
      assert KeysOf(entries) == KeysOf(rest) + {last.key};
      assert last.key !in KeysOf(rest);
    }
  }

  lemma LiveKeyIsStored(entries: seq<Entry>, log: map<Id, seq<int>>, c0: int, cutoff: int, k: Id)
    requires Covers(entries, log, c0, true) && c0 <= cutoff
    ensures HasKey(Unexpired(entries, cutoff), k) <==> k in LiveKeys(log, cutoff)
  {
    UnexpiredTimes(entries, cutoff, k);
    TimesAreStored(entries, k);
    assert CoversKey(TimesOf(entries, k), LogOf(log, k), c0, true);
    StoredIsLive(TimesOf(entries, k), LogOf(log, k), c0, cutoff);
  }

  lemma StoredIsLive(stored: seq<int>, whole: seq<int>, c0: int, cutoff: int)
    requires CoversKey(stored, whole, c0, true) && c0 <= cutoff
    ensures Live(Entry([], stored), cutoff) <==> 0 < CountSince(whole, cutoff)
  {
    if Live(Entry([], stored), cutoff) {
      assert stored[|stored| - 1] == whole[|whole| - 1];
      CountAtLeast(whole, |whole|, |whole| - 1, cutoff);
    } else {
      ExpiredCovers(stored, whole, c0, cutoff, true);
      CountBoth(whole, |whole|, |whole|, cutoff);
    }
  }

  lemma LiveKeysCounted(entries: seq<Entry>, log: map<Id, seq<int>>, c0: int, cutoff: int)
    requires Covers(entries, log, c0, true) && c0 <= cutoff
    ensures |Unexpired(entries, cutoff)| == |LiveKeys(log, cutoff)|
  {
    var live := Unexpired(entries, cutoff);
    UnexpiredKeeps(entries, cutoff);
    forall k
      ensures k in KeysOf(live) <==> k in LiveKeys(log, cutoff)
    {
      LiveKeyIsStored(entries, log, c0, cutoff, k);
    }
    assert KeysOf(live) == LiveKeys(log, cutoff);
    KeysCounted(live);
  }

  /** Live keys that fit leave room in the table. */
  lemma FitsIsRoom(entries: seq<Entry>, log: map<Id, seq<int>>, c0: int, key: Id, now: int, b: Bounds)
    requires b.Valid() && Covers(entries, log, c0, true) && c0 <= now - b.window
    ensures HasRoom(entries, key, now, b) <==> key in LiveKeys(log, now - b.window) || Fits(log, key, now, b)
  {
    var keys := LiveKeys(log, now - b.window);
    LiveKeysCounted(entries, log, c0, now - b.window);
    LiveKeyIsStored(entries, log, c0, now - b.window, key);
    WithoutKey(keys, key);
  }

  lemma WithoutKey(keys: set<Id>, key: Id)
    ensures |keys - {key}| == if key in keys then |keys| - 1 else |keys|
  {
    if key !in keys { assert keys - {key} == keys; }
  }

  // ---------------------------------------------------------------- runs

  datatype Call = Call(key: Id, at: int)

  /** `tables[i]`, `logs[i]` are the table and the acceptances before call `i`; time never runs backwards. */
  ghost predicate Run(tables: seq<seq<Entry>>, logs: seq<map<Id, seq<int>>>, calls: seq<Call>, answers: seq<bool>,
                      b: Bounds) {
    && b.Valid() && |tables| == |logs| == |calls| + 1 == |answers| + 1 && tables[0] == [] && logs[0] == map[]
    && (forall i, j :: 0 <= i < j < |calls| ==> calls[i].at <= calls[j].at)
    && forall i, j :: 0 <= i < j < |tables| && j == i + 1 ==> Steps(tables[i], logs[i], calls[i], answers[i], tables[j], logs[j], b)
  }

  ghost predicate Steps(table: seq<Entry>, log: map<Id, seq<int>>, c: Call, answer: bool, table1: seq<Entry>,
                        log1: map<Id, seq<int>>, b: Bounds)
    requires b.Valid()
  {
    Allow(table, c.key, c.at, b) == (table1, answer) && log1 == Logged(log, c.key, c.at, answer)
  }

  /** At every one of the first `n` calls the live keys fit. */
  ghost predicate AlwaysFits(logs: seq<map<Id, seq<int>>>, calls: seq<Call>, b: Bounds, n: nat)
    requires n <= |calls| < |logs|
  {
    forall i :: 0 <= i < n ==> Fits(logs[i], calls[i].key, calls[i].at, b)
  }

  /** A cutoff that the run has reached before call `n`. */
  function CutoffBefore(calls: seq<Call>, b: Bounds, n: nat): int
    requires n <= |calls|
  {
    if n == 0 then (if calls == [] then 0 else calls[0].at) - b.window else calls[n - 1].at - b.window
  }

  /** The table covers the log, and the log is not ahead of the next call. */
  ghost predicate Covered(tables: seq<seq<Entry>>, logs: seq<map<Id, seq<int>>>, calls: seq<Call>, b: Bounds, n: nat)
    requires n <= |calls| && |tables| == |logs| == |calls| + 1
  {
    Covers(tables[n], logs[n], CutoffBefore(calls, b, n), AlwaysFits(logs, calls, b, n))
      && (n < |calls| ==> UpTo(logs[n], calls[n].at))
  }

  lemma RunStep(tables: seq<seq<Entry>>, logs: seq<map<Id, seq<int>>>, calls: seq<Call>, answers: seq<bool>, b: Bounds,
                n: nat)
    requires Run(tables, logs, calls, answers, b) && n < |calls|
    ensures Steps(tables[n], logs[n], calls[n], answers[n], tables[n + 1], logs[n + 1], b)
    ensures CutoffBefore(calls, b, n) <= calls[n].at - b.window && (n + 1 < |calls| ==> calls[n].at <= calls[n + 1].at)
  {}

  lemma FitsSoFar(logs: seq<map<Id, seq<int>>>, calls: seq<Call>, b: Bounds, n: nat)
    requires n < |calls| < |logs|
    ensures AlwaysFits(logs, calls, b, n + 1) <==> AlwaysFits(logs, calls, b, n) && Fits(logs[n], calls[n].key, calls[n].at, b)
  {}

  lemma NextCovered(tables: seq<seq<Entry>>, logs: seq<map<Id, seq<int>>>, calls: seq<Call>, answers: seq<bool>,
                    b: Bounds, n: nat)
    requires Run(tables, logs, calls, answers, b) && n < |calls| && Covered(tables, logs, calls, b, n)
    ensures Covered(tables, logs, calls, b, n + 1)
    ensures !answers[n] ==> !NaiveAllows(logs[n], calls[n].key, calls[n].at, b)
    ensures AlwaysFits(logs, calls, b, n) ==> (answers[n] <==> NaiveAllows(logs[n], calls[n].key, calls[n].at, b))
  {
    RunStep(tables, logs, calls, answers, b, n);
    FitsSoFar(logs, calls, b, n);
    if AlwaysFits(logs, calls, b, n + 1) { FitsIsRoom(tables[n], logs[n], CutoffBefore(calls, b, n), calls[n].key, calls[n].at, b); }
    AllowDecides(tables[n], logs[n], CutoffBefore(calls, b, n), AlwaysFits(logs, calls, b, n), calls[n].key, calls[n].at, b);
    LoggedUpTo(logs[n], calls[n].key, calls[n].at, answers[n]);
    AllowCovers(tables[n], logs[n], CutoffBefore(calls, b, n), AlwaysFits(logs, calls, b, n), calls[n].key, calls[n].at, b,
                AlwaysFits(logs, calls, b, n + 1), CutoffBefore(calls, b, n + 1));
    if n + 1 < |calls| { UpToLater(logs[n + 1], calls[n].at, calls[n + 1].at); }
  }

  lemma {:induction false} RunCovers(tables: seq<seq<Entry>>, logs: seq<map<Id, seq<int>>>, calls: seq<Call>,
                                     answers: seq<bool>, b: Bounds, n: nat)
    requires Run(tables, logs, calls, answers, b) && n <= |calls|
    ensures Covered(tables, logs, calls, b, n)
  {
    if n == 0 {
      EmptyCovered(tables, logs, calls, b);
    } else {
      var m := n - 1;
      RunCovers(tables, logs, calls, answers, b, m);
      NextCovered(tables, logs, calls, answers, b, m);
    }
  }

  lemma EmptyCovered(tables: seq<seq<Entry>>, logs: seq<map<Id, seq<int>>>, calls: seq<Call>, b: Bounds)
    requires |tables| == |logs| == |calls| + 1 && tables[0] == [] && logs[0] == map[]
    ensures Covered(tables, logs, calls, b, 0)
  {}

  lemma {:induction false} RunBounded(tables: seq<seq<Entry>>, logs: seq<map<Id, seq<int>>>, calls: seq<Call>,
                                      answers: seq<bool>, b: Bounds, n: nat)
    requires Run(tables, logs, calls, answers, b) && n <= |calls|
    ensures UniqueKeys(tables[n]) && |tables[n]| <= b.maxKeys
  {
    if n > 0 {
      var m := n - 1;
      RunBounded(tables, logs, calls, answers, b, m);
      RunStep(tables, logs, calls, answers, b, m);
      StepBounded(tables[m], logs[m], calls[m], answers[m], tables[m + 1], logs[m + 1], b);
    }
  }

  lemma StepBounded(table: seq<Entry>, log: map<Id, seq<int>>, c: Call, answer: bool, table1: seq<Entry>, log1: map<Id,
                    seq<int>>, b: Bounds)
    requires b.Valid() && Steps(table, log, c, answer, table1, log1, b) && UniqueKeys(table) && |table| <= b.maxKeys
    ensures UniqueKeys(table1) && |table1| <= b.maxKeys
  {
    AllowKeepsKeys(table, c.key, c.at, b);
  }

  lemma UpToLater(log: map<Id, seq<int>>, now: int, later: int)
    requires UpTo(log, now) && now <= later
    ensures UpTo(log, later)
  {}

  /** The bounded limiter decides as the naive one does, call for call, as long as the live keys have fitted
      into the table so far; without that its refusals are still right; and it never stores more than
      `maxKeys` keys. */
  lemma RefinesNaive(tables: seq<seq<Entry>>, logs: seq<map<Id, seq<int>>>, calls: seq<Call>, answers: seq<bool>,
                     b: Bounds, n: nat)
    requires Run(tables, logs, calls, answers, b) && n < |calls|
    ensures AlwaysFits(logs, calls, b, n) ==> (answers[n] <==> NaiveAllows(logs[n], calls[n].key, calls[n].at, b))
    ensures !answers[n] ==> !NaiveAllows(logs[n], calls[n].key, calls[n].at, b)
    ensures |tables[n]| <= b.maxKeys
  {
    RunCovers(tables, logs, calls, answers, b, n);
    NextCovered(tables, logs, calls, answers, b, n);
    RunBounded(tables, logs, calls, answers, b, n);
  }

  // ---------------------------------------------------------------- the promise

  /** Any acceptance is a full window after the one `limit` places before it. */
  ghost predicate Spread(times: seq<int>, b: Bounds) {
    forall i, j :: 0 <= i < j < |times| && j == i + b.limit ==> times[i] + b.window <= times[j]
  }

  /** How many of the times lie in the window of length `window` that ends with `t`. */
  function InWindow(times: seq<int>, t: int, window: nat): nat {
    if times == [] then 0
    else InWindow(times[..|times| - 1], t, window) + (if t - window < times[|times| - 1] <= t then 1 else 0)
  }

  lemma AppendSpread(times: seq<int>, now: int, b: Bounds)
    requires b.Valid() && Spread(times, b) && Ascending(times) && CountSince(times, now - b.window) < b.limit
    ensures Spread(times + [now], b)
  {
    CountIsTrimmed(times, now - b.window);
    var p := TrimmedSplits(times, now - b.window);
    forall i, j | 0 <= i < j < |times| + 1 && j == i + b.limit
      ensures (times + [now])[i] + b.window <= (times + [now])[j]
    {
      if j == |times| { assert i < p; } else { assert times[i] + b.window <= times[j]; }
    }
  }

  lemma AllowedSpread(log: map<Id, seq<int>>, key: Id, now: int, b: Bounds)
    requires b.Valid() && NaiveAllows(log, key, now, b) && Spread(LogOf(log, key), b) && Ascending(LogOf(log, key))
    ensures Spread(LogOf(log, key) + [now], b)
  {
    AppendSpread(LogOf(log, key), now, b);
  }

  /** One step of a run in which the live keys fit. */
  lemma StepSpread(tables: seq<seq<Entry>>, logs: seq<map<Id, seq<int>>>, calls: seq<Call>, answers: seq<bool>,
                   b: Bounds, n: nat, key: Id)
    requires Run(tables, logs, calls, answers, b) && n < |calls| && AlwaysFits(logs, calls, b, n) && Spread(LogOf(logs[n], key), b)
    ensures Spread(LogOf(logs[n + 1], key), b)
  {
    RunStep(tables, logs, calls, answers, b, n);
    RefinesNaive(tables, logs, calls, answers, b, n);
    RunAscends(tables, logs, calls, answers, b, n, key);
    if answers[n] && calls[n].key == key { AllowedSpread(logs[n], key, calls[n].at, b); }
  }

  lemma RunAscends(tables: seq<seq<Entry>>, logs: seq<map<Id, seq<int>>>, calls: seq<Call>, answers: seq<bool>,
                   b: Bounds, n: nat, key: Id)
    requires Run(tables, logs, calls, answers, b) && n <= |calls|
    ensures Ascending(LogOf(logs[n], key))
  {
    RunCovers(tables, logs, calls, answers, b, n);
    assert CoversKey(TimesOf(tables[n], key), LogOf(logs[n], key), CutoffBefore(calls, b, n), AlwaysFits(logs, calls, b, n));
  }

  lemma {:induction false} RunSpread(tables: seq<seq<Entry>>, logs: seq<map<Id, seq<int>>>, calls: seq<Call>,
                                     answers: seq<bool>, b: Bounds, n: nat, key: Id)
    requires Run(tables, logs, calls, answers, b) && n <= |calls| && AlwaysFits(logs, calls, b, n)
    ensures Spread(LogOf(logs[n], key), b)
  {
    if n > 0 {
      FitsSoFar(logs, calls, b, n - 1);
      RunSpread(tables, logs, calls, answers, b, n - 1, key);
      StepSpread(tables, logs, calls, answers, b, n - 1, key);
    }
  }

  /** Spread-out acceptances never crowd a window: the acceptances in it are consecutive. */
  lemma {:induction false} SpreadFillsNoWindow(times: seq<int>, b: Bounds, t: int)
    requires b.Valid() && Ascending(times) && Spread(times, b)
    ensures InWindow(times, t, b.window) <= b.limit
    decreases |times|
  {
    if times != [] {
      var last := times[|times| - 1];
      if t - b.window < last <= t {
        var first := if |times| < b.limit then 0 else |times| - b.limit;
        forall i | 0 <= i < first
          ensures times[i] <= t - b.window
        {
          assert times[first - 1] + b.window <= times[|times| - 1];
        }
        CountFrom(times, first, t, b.window);
      } else {
        SpreadFillsNoWindow(times[..|times| - 1], b, t);
      }
    }
  }

  lemma {:induction false} CountFrom(times: seq<int>, first: nat, t: int, window: nat)
    requires first <= |times| && forall i :: 0 <= i < first ==> times[i] <= t - window
    ensures InWindow(times, t, window) <= |times| - first
    decreases |times|
  {
    if first < |times| {
      CountFrom(times[..|times| - 1], first, t, window);
    } else if times != [] {
      CountFrom(times[..|times| - 1], first - 1, t, window);
    }
  }

  /** As long as the live keys have fitted, no window of that length holds more than `limit` acceptances of a key. */
  lemma NoWindowOverfull(tables: seq<seq<Entry>>, logs: seq<map<Id, seq<int>>>, calls: seq<Call>, answers: seq<bool>,
                         b: Bounds, n: nat, key: Id, t: int)
    requires Run(tables, logs, calls, answers, b) && n <= |calls| && AlwaysFits(logs, calls, b, n)
    ensures InWindow(LogOf(logs[n], key), t, b.window) <= b.limit
  {
    RunSpread(tables, logs, calls, answers, b, n, key);
    RunAscends(tables, logs, calls, answers, b, n, key);
    SpreadFillsNoWindow(LogOf(logs[n], key), b, t);
  }

  // ---------------------------------------------------------------- which settings keep the promise

  function CallKeys(calls: seq<Call>): set<Id> { set c | c in calls :: c.key }

  /** No run over at most `n` different keys ever puts more than `limit` acceptances of a key into a window. */
  ghost predicate NeverOverfull(b: Bounds, n: nat) {
    forall tables, logs, calls, answers, m: nat, key, t ::
      Run(tables, logs, calls, answers, b) && |CallKeys(calls)| <= n && m <= |calls| ==>
          InWindow(LogOf(logs[m], key), t, b.window) <= b.limit
  }

  /** The promise depends on the configuration alone: it is kept for `n` keys exactly when the table has room
      for all of them. */
  lemma NeverOverfullExactly(b: Bounds, n: nat)
    requires b.Valid()
    ensures NeverOverfull(b, n) <==> n <= b.maxKeys
  {
    if n <= b.maxKeys {
      forall tables, logs, calls, answers, m: nat, key, t | Run(tables, logs, calls, answers, b)
        && |CallKeys(calls)| <= n && m <= |calls|
        ensures InWindow(LogOf(logs[m], key), t, b.window) <= b.limit
      {
        FewKeysFit(tables, logs, calls, answers, b, m);
        NoWindowOverfull(tables, logs, calls, answers, b, m, key, t);
      }
    } else {
      FloodOverfills(b, n);
    }
  }

  lemma {:induction false} LoggedKeys(tables: seq<seq<Entry>>, logs: seq<map<Id, seq<int>>>, calls: seq<Call>,
                                      answers: seq<bool>, b: Bounds, m: nat)
    requires Run(tables, logs, calls, answers, b) && m <= |calls|
    ensures logs[m].Keys <= CallKeys(calls)
  {
    if m > 0 {
      LoggedKeys(tables, logs, calls, answers, b, m - 1);
      RunStep(tables, logs, calls, answers, b, m - 1);
      assert calls[m - 1] in calls;
    }
  }

  lemma SmallerSet(a: set<Id>, b: set<Id>)
    requires a <= b
    ensures |a| <= |b|
  {
    assert b == a + (b - a);
  }

  lemma FewKeysFit(tables: seq<seq<Entry>>, logs: seq<map<Id, seq<int>>>, calls: seq<Call>, answers: seq<bool>,
                   b: Bounds, m: nat)
    requires Run(tables, logs, calls, answers, b) && m <= |calls| && |CallKeys(calls)| <= b.maxKeys
    ensures AlwaysFits(logs, calls, b, m)
  {
    forall i | 0 <= i < m
      ensures Fits(logs[i], calls[i].key, calls[i].at, b)
    {
      LoggedKeys(tables, logs, calls, answers, b, i);
      assert calls[i] in calls;
      var live := LiveKeys(logs[i], calls[i].at - b.window);
      SmallerSet(live - {calls[i].key}, CallKeys(calls) - {calls[i].key});
    }
  }

  lemma {:induction false} EachLive(entries: seq<Entry>, cutoff: int)
    requires forall i :: 0 <= i < |entries| ==> Live(entries[i], cutoff)
    ensures Unexpired(entries, cutoff) == entries
  {
    if entries != [] {
      EachLive(entries[..|entries| - 1], cutoff);
      assert entries == entries[..|entries| - 1] + [entries[|entries| - 1]];
    }
  }

  lemma AllLive(entries: seq<Entry>, cutoff: int)
    requires forall e <- entries :: Live(e, cutoff)
    ensures Unexpired(entries, cutoff) == entries
  {
    forall i | 0 <= i < |entries|
      ensures Live(entries[i], cutoff)
    {
      assert entries[i] in entries;
    }
    EachLive(entries, cutoff);
  }

  lemma {:induction false} WithoutAbsent(entries: seq<Entry>, key: Id)
    requires !HasKey(entries, key)
    ensures Without(entries, key) == entries && TimesOf(entries, key) == []
  {
    if entries != [] {
      var rest := entries[..|entries| - 1];
      assert entries == rest + [entries[|entries| - 1]];
      assert !HasKey(rest, key);
      WithoutAbsent(rest, key);
    }
  }

  /** A key that the kept table does not hold is accepted. */
  lemma AbsentAllowed(entries: seq<Entry>, kept: seq<Entry>, key: Id, now: int, b: Bounds)
    requires b.Valid() && kept == Kept(entries, key, now, b) && !HasKey(kept, key)
    ensures Allow(entries, key, now, b) == (kept + [Entry(key, [now])], true)
  {
    WithoutAbsent(kept, key);
    assert Trimmed([], now - b.window) == [] && [] + [now] == [now];
  }

  /** In a live table a new key takes the place of the oldest, if the table is full. */
  lemma NewKeyStored(entries: seq<Entry>, key: Id, now: int, b: Bounds)
    requires b.Valid() && (forall e <- entries :: Live(e, now - b.window)) && !HasKey(entries, key)
    ensures Allow(entries, key, now, b) == (Evicted(entries, b.maxKeys) + [Entry(key, [now])], true)
  {
    AllLive(entries, now - b.window);
    var kept := Evicted(entries, b.maxKeys);
    forall e | e in kept
      ensures e.key != key
    {
      assert e in entries;
    }
    AbsentAllowed(entries, kept, key, now, b);
  }

  /** With a full live table, whatever `limit` and `maxKeys` are: a new key evicts the oldest one, and that one is
      then accepted again however much of its limit it had used up. */
  lemma EvictionForgets(entries: seq<Entry>, key: Id, now: int, b: Bounds)
    requires b.Valid() && UniqueKeys(entries) && |entries| == b.maxKeys
    requires (forall e <- entries :: Live(e, now - b.window)) && !HasKey(entries, key)
    ensures Allow(entries, key, now, b) == (entries[1..] + [Entry(key, [now])], true)
    ensures var after := entries[1..] + [Entry(key, [now])];
            Allow(after, entries[0].key, now, b) == (after[1..] + [Entry(entries[0].key, [now])], true)
  {
    NewKeyEvicts(entries, key, now, b);
    OldestIsGone(entries, key, now, b);
    NewKeyEvicts(entries[1..] + [Entry(key, [now])], entries[0].key, now, b);
  }

  lemma NewKeyEvicts(entries: seq<Entry>, key: Id, now: int, b: Bounds)
    requires b.Valid() && |entries| == b.maxKeys && (forall e <- entries :: Live(e, now - b.window)) && !HasKey(entries, key)
    ensures Allow(entries, key, now, b) == (entries[1..] + [Entry(key, [now])], true)
  {
    NewKeyStored(entries, key, now, b);
    assert Evicted(entries, b.maxKeys) == entries[1..];
  }

  lemma OldestIsGone(entries: seq<Entry>, key: Id, now: int, b: Bounds)
    requires b.Valid() && UniqueKeys(entries) && entries != []
    requires (forall e <- entries :: Live(e, now - b.window)) && !HasKey(entries, key)
    ensures var after := entries[1..] + [Entry(key, [now])];
            (forall e <- after :: Live(e, now - b.window)) && !HasKey(after, entries[0].key)
  {
    var after := entries[1..] + [Entry(key, [now])];
    assert entries[0] in entries;
    forall i | 0 <= i < |after|
      ensures Live(after[i], now - b.window) && after[i].key != entries[0].key
    {
      if i + 1 < |entries| { assert after[i] == entries[i + 1] && entries[i + 1] in entries; }
    }
  }

  // ---------------------------------------------------------------- a flood of keys

  /** Different names. */
  function K(i: nat): Id { seq(i, _ => 'k') }

  function Zeros(n: nat): seq<int> { seq(n, _ => 0) }

  /** The first key uses up its limit, `maxKeys` other keys follow, and the first key comes back. */
  function FloodKey(b: Bounds, i: nat): Id {
    if i < b.limit || i == b.limit + b.maxKeys then K(0) else K(i - b.limit + 1)
  }

  function FloodLog(b: Bounds, n: nat): map<Id, seq<int>> {
    if n == 0 then map[] else Logged(FloodLog(b, n - 1), FloodKey(b, n - 1), 0, true)
  }

  function FloodCall(b: Bounds, i: nat): Call { Call(FloodKey(b, i), 0) }

  /** The table while the keys still fit: the first key, and `j` others. */
  function Filled(limit: nat, j: nat): seq<Entry> {
    [Entry(K(0), Zeros(limit))] + seq(j, i requires 0 <= i => Entry(K(i + 1), [0]))
  }

  /** The table before call `i`, and after the last one. */
  function FloodTable(b: Bounds, i: nat): seq<Entry>
    requires b.Valid()
  {
    if i == 0 then []
    else if i <= b.limit then Filled(i, 0)
    else if i < b.limit + b.maxKeys then Filled(b.limit, i - b.limit)
    else if i == b.limit + b.maxKeys then Filled(b.limit, b.maxKeys - 1)[1..] + [Entry(K(b.maxKeys), [0])]
    else (Filled(b.limit, b.maxKeys - 1)[1..] + [Entry(K(b.maxKeys), [0])])[1..] + [Entry(K(0), [0])]
  }

  /** A key that the kept table holds is accepted while it has less than its limit. */
  lemma PresentAllowed(entries: seq<Entry>, kept: seq<Entry>, times: seq<int>, key: Id, now: int, b: Bounds)
    requires b.Valid() && kept == Kept(entries, key, now, b) && Without(kept, key) == []
    requires times == Trimmed(TimesOf(kept, key), now - b.window) && |times| < b.limit
    ensures Allow(entries, key, now, b) == ([Entry(key, times + [now])], true)
  {
    assert [] + [Entry(key, times + [now])] == [Entry(key, times + [now])];
  }

  lemma AloneStored(entries: seq<Entry>, key: Id, times: seq<int>)
    requires entries == [Entry(key, times)]
    ensures Without(entries, key) == [] && TimesOf(entries, key) == times && HasKey(entries, key)
  {
    assert entries[0] in entries && entries[..0] == [] && Without([], key) == [];
  }

  lemma PresentKept(entries: seq<Entry>, key: Id, now: int, b: Bounds)
    requires b.Valid() && (forall e <- entries :: Live(e, now - b.window)) && HasKey(entries, key)
    ensures Kept(entries, key, now, b) == entries
  {
    AllLive(entries, now - b.window);
  }

  lemma NothingTrimmed(times: seq<int>, cutoff: int)
    requires times != [] && cutoff < times[0]
    ensures Trimmed(times, cutoff) == times
  {}

  lemma SameKeyStored(entries: seq<Entry>, key: Id, times: seq<int>, now: int, b: Bounds)
    requires b.Valid() && entries == [Entry(key, times)] && times != [] && (forall t <- times :: t == now) && |times| < b.limit
    ensures Allow(entries, key, now, b) == ([Entry(key, times + [now])], true)
  {
    AloneStored(entries, key, times);
    assert times[0] in times && times[|times| - 1] in times;
    AloneKept(entries, key, times, now, b);
    NothingTrimmed(times, now - b.window);
    PresentAllowed(entries, entries, times, key, now, b);
  }

  lemma AloneKept(entries: seq<Entry>, key: Id, times: seq<int>, now: int, b: Bounds)
    requires b.Valid() && entries == [Entry(key, times)] && times != [] && times[|times| - 1] == now
    ensures Kept(entries, key, now, b) == entries
  {
    assert entries[0] in entries;
    PresentKept(entries, key, now, b);
  }

  lemma FirstKeyStored(b: Bounds, i: nat)
    requires b.Valid() && i < b.limit
    ensures Allow(FloodTable(b, i), K(0), 0, b) == (Filled(i + 1, 0), true)
  {
    assert Filled(i + 1, 0) == [Entry(K(0), Zeros(i + 1))] && Zeros(i) + [0] == Zeros(i + 1);
    if i == 0 {
      assert Zeros(1) == [0] && Evicted([], b.maxKeys) + [Entry(K(0), [0])] == [Entry(K(0), [0])];
      NewKeyStored([], K(0), 0, b);
    } else {
      assert Filled(i, 0) == [Entry(K(0), Zeros(i))];
      SameKeyStored(Filled(i, 0), K(0), Zeros(i), 0, b);
    }
  }

  lemma OtherKeyStored(b: Bounds, j: nat)
    requires b.Valid() && j + 1 < b.maxKeys
    ensures Allow(Filled(b.limit, j), K(j + 1), 0, b) == (Filled(b.limit, j + 1), true)
  {
    FilledIsLive(b, j, j + 1);
    NewKeyStored(Filled(b.limit, j), K(j + 1), 0, b);
    assert Filled(b.limit, j) + [Entry(K(j + 1), [0])] == Filled(b.limit, j + 1);
  }

  lemma FilledIsLive(b: Bounds, j: nat, next: nat)
    requires b.Valid() && j < next
    ensures UniqueKeys(Filled(b.limit, j)) && |Filled(b.limit, j)| == j + 1
    ensures (forall e <- Filled(b.limit, j) :: Live(e, 0 - b.window)) && !HasKey(Filled(b.limit, j), K(next))
  {
    var entries := Filled(b.limit, j);
    forall i | 0 <= i < |entries|
      ensures entries[i].key == K(i) && Live(entries[i], 0 - b.window)
    {}
    assert forall i :: 0 <= i < |entries| ==> |entries[i].key| == i;
  }

  lemma LastKeysStored(b: Bounds)
    requires b.Valid()
    ensures var entries := Filled(b.limit, b.maxKeys - 1); var after := entries[1..] + [Entry(K(b.maxKeys), [0])];
            Allow(entries, K(b.maxKeys), 0, b) == (after, true) && Allow(after, K(0), 0, b) == (after[1..] + [Entry(K(0), [0])], true)
  {
    FilledIsLive(b, b.maxKeys - 1, b.maxKeys);
    EvictionForgets(Filled(b.limit, b.maxKeys - 1), K(b.maxKeys), 0, b);
  }

  lemma FirstSteps(b: Bounds, i: nat, table: seq<Entry>, after: seq<Entry>)
    requires b.Valid() && i < b.limit && table == FloodTable(b, i) && after == Filled(i + 1, 0)
    ensures Allow(table, K(0), 0, b) == (after, true)
  {
    FirstKeyStored(b, i);
  }

  lemma OtherSteps(b: Bounds, j: nat, table: seq<Entry>, key: Id, after: seq<Entry>)
    requires b.Valid() && j + 1 < b.maxKeys && table == Filled(b.limit, j) && key == K(j + 1) && after == Filled(b.limit, j + 1)
    ensures Allow(table, key, 0, b) == (after, true)
  {
    OtherKeyStored(b, j);
  }

  /** Every call of the flood is accepted. */
  lemma FloodSteps(b: Bounds, i: nat, table: seq<Entry>, key: Id, after: seq<Entry>)
    requires b.Valid() && i <= b.limit + b.maxKeys && table == FloodTable(b, i) && key == FloodKey(b, i)
             && after == FloodTable(b, i + 1)
    ensures Allow(table, key, 0, b) == (after, true)
  {
    if i < b.limit {
      FirstSteps(b, i, table, after);
    } else if i + 1 < b.limit + b.maxKeys {
      OtherSteps(b, i - b.limit, table, key, after);
    } else {
      LastKeysStored(b);
    }
  }

  lemma {:induction false} FloodLogged(b: Bounds, n: nat)
    requires b.Valid() && n <= b.limit + b.maxKeys + 1
    ensures LogOf(FloodLog(b, n), K(0)) == Zeros(if n <= b.limit then n else if n <= b.limit + b.maxKeys then b.limit else b.limit + 1)
  {
    if n > 0 {
      FloodLogged(b, n - 1);
      var before := LogOf(FloodLog(b, n - 1), K(0));
      assert before + [0] == Zeros(|before| + 1);
      assert FloodKey(b, n - 1) != K(0) ==> |FloodKey(b, n - 1)| > 0;
      if b.limit < n <= b.limit + b.maxKeys { assert |FloodKey(b, n - 1)| == n - b.limit; }
    }
  }

  lemma {:induction false} ZerosInWindow(n: nat, window: nat)
    requires 1 <= window
    ensures InWindow(Zeros(n), 0, window) == n
  {
    if n > 0 {
      ZerosInWindow(n - 1, window);
      assert Zeros(n)[..n - 1] == Zeros(n - 1);
    }
  }

  function Names(m: nat): set<Id> { if m == 0 then {K(0)} else Names(m - 1) + {K(m)} }

  lemma {:induction false} NamesCounted(m: nat)
    ensures |Names(m)| <= m + 1 && forall i: nat :: i <= m ==> K(i) in Names(m)
  {
    if m > 0 { NamesCounted(m - 1); }
  }

  lemma FloodIsStep(b: Bounds, i: nat)
    requires b.Valid() && i <= b.limit + b.maxKeys
    ensures Steps(FloodTable(b, i), FloodLog(b, i), FloodCall(b, i), true, FloodTable(b, i + 1), FloodLog(b, i + 1), b)
  {
    FloodSteps(b, i, FloodTable(b, i), FloodKey(b, i), FloodTable(b, i + 1));
  }

  /** The flood as a run. */
  lemma FloodRuns(b: Bounds, tables: seq<seq<Entry>>, logs: seq<map<Id, seq<int>>>, calls: seq<Call>,
                  answers: seq<bool>)
    requires b.Valid() && |calls| == b.limit + b.maxKeys + 1 && |tables| == |logs| == |calls| + 1 == |answers| + 1
    requires forall i :: 0 <= i < |calls| ==> calls[i] == FloodCall(b, i) && answers[i]
    requires forall i :: 0 <= i < |tables| ==> tables[i] == FloodTable(b, i) && logs[i] == FloodLog(b, i)
    ensures Run(tables, logs, calls, answers, b)
  {
    forall i, j | 0 <= i < j < |tables| && j == i + 1
      ensures Steps(tables[i], logs[i], calls[i], answers[i], tables[j], logs[j], b)
    {
      FloodIsStep(b, i);
    }
  }

  lemma FloodOverfills(b: Bounds, n: nat)
    requires b.Valid() && b.maxKeys < n
    ensures !NeverOverfull(b, n)
  {
    var size := b.limit + b.maxKeys + 1;
    var tables := seq(size + 1, i requires 0 <= i <= size => FloodTable(b, i));
    var logs := seq(size + 1, i requires 0 <= i <= size => FloodLog(b, i));
    var calls := seq(size, i requires 0 <= i < size => FloodCall(b, i));
    var answers := seq(size, i => true);
    FloodRuns(b, tables, logs, calls, answers);
    NamesCounted(b.maxKeys);
    forall c | c in calls
      ensures c.key in Names(b.maxKeys)
    {}
    SmallerSet(CallKeys(calls), Names(b.maxKeys));
    FloodLogged(b, size);
    ZerosInWindow(b.limit + 1, b.window);
    OverfullIn(tables, logs, calls, answers, b, n, size);
  }

  lemma OverfullIn(tables: seq<seq<Entry>>, logs: seq<map<Id, seq<int>>>, calls: seq<Call>, answers: seq<bool>,
                   b: Bounds, n: nat, m: nat)
    requires Run(tables, logs, calls, answers, b) && |CallKeys(calls)| <= n && m <= |calls|
    requires b.limit < InWindow(LogOf(logs[m], K(0)), 0, b.window)
    ensures !NeverOverfull(b, n)
  {}
}
