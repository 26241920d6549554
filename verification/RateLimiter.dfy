/** The bounded rate limiter: an ordered table of recent acceptances with lazy expiry and eviction of the
    least recently used key (`BoundedRateLimiter` of api_security.py). */
module RateLimiter {
  import opened DurableCore

  /** What the ordered dictionary stores under one key. */
  datatype Entry = Entry(key: Id, times: seq<int>)

  datatype Bounds = Bounds(limit: nat, window: nat, maxKeys: nat)
  {
    predicate Valid() { 1 <= limit && 1 <= window && 1 <= maxKeys }
  }

  // ---------------------------------------------------------------- the table

  /** Some acceptance of the entry is later than `cutoff`. */
  predicate Live(e: Entry, cutoff: int) { e.times != [] && cutoff < e.times[|e.times| - 1] }

  function Unexpired(entries: seq<Entry>, cutoff: int): seq<Entry> {
    if entries == [] then []
    else Unexpired(entries[..|entries| - 1], cutoff) + (if Live(entries[|entries| - 1], cutoff) then [entries[|entries| - 1]] else [])
  }

  /** The position of the first time from `i` on that is later than `cutoff`. */
  function FirstAfter(times: seq<int>, i: nat, cutoff: int): (r: nat)
    requires i <= |times|
    ensures i <= r <= |times|
    decreases |times| - i
  {
    if i == |times| || cutoff < times[i] then i else FirstAfter(times, i + 1, cutoff)
  }

  /** Drops the times at the front that are not later than `cutoff`. */
  function Trimmed(times: seq<int>, cutoff: int): seq<int> { times[FirstAfter(times, 0, cutoff)..] }

  function Without(entries: seq<Entry>, key: Id): seq<Entry> {
    if entries == [] then []
    else Without(entries[..|entries| - 1], key) + (if entries[|entries| - 1].key == key then [] else [entries[|entries| - 1]])
  }

  predicate HasKey(entries: seq<Entry>, key: Id) { exists e <- entries :: e.key == key }

  /** The times stored under a key, [] when there is none. */
  function TimesOf(entries: seq<Entry>, key: Id): seq<int> {
    if entries == [] then []
    else if entries[|entries| - 1].key == key then entries[|entries| - 1].times
    else TimesOf(entries[..|entries| - 1], key)
  }

  /** Evicts from the front until fewer than `maxKeys` are left. */
  function Evicted(entries: seq<Entry>, maxKeys: nat): seq<Entry>
    requires 1 <= maxKeys
  {
    if |entries| < maxKeys then entries else entries[|entries| - maxKeys + 1..]
  }

  /** The table once the expired keys are gone and there is room for the called one. */
  function Kept(entries: seq<Entry>, key: Id, now: int, b: Bounds): seq<Entry>
    requires b.Valid()
  {
    var live := Unexpired(entries, now - b.window);
    if HasKey(live, key) then live else Evicted(live, b.maxKeys)
  }

  /** The key moved to the end, with these times. */
  function Moved(entries: seq<Entry>, key: Id, times: seq<int>): seq<Entry> {
    Without(entries, key) + [Entry(key, times)]
  }

  /** `allow`: the table afterwards, and the decision. */
  function Allow(entries: seq<Entry>, key: Id, now: int, b: Bounds): (seq<Entry>, bool)
    requires b.Valid()
  {
    var kept := Kept(entries, key, now, b);
    var times := Trimmed(TimesOf(kept, key), now - b.window);
    if b.limit <= |times| then (Moved(kept, key, times), false) else (Moved(kept, key, times + [now]), true)
  }

  // ---------------------------------------------------------------- the limiter

  class BoundedRateLimiter {
    const bounds: Bounds
    var entries: seq<Entry>

    /** Every key is stored once. */
    ghost predicate Valid() reads this { bounds.Valid() && UniqueKeys(entries) }

    constructor (bounds: Bounds)
      requires bounds.Valid()
      ensures this.bounds == bounds && entries == [] && Valid()
    {
      this.bounds := bounds;
      entries := [];
    }

    /** Drops every key without an acceptance later than `cutoff`. */
    method Expire(cutoff: int)
      modifies this
      ensures entries == Unexpired(old(entries), cutoff)
    {
      var table := entries;
      var live := [];
      for i := 0 to |table|
        invariant live == Unexpired(table[..i], cutoff)
      {
        assert table[..i + 1][..i] == table[..i];
        if table[i].times != [] && cutoff < table[i].times[|table[i].times| - 1] { live := live + [table[i]]; }
      }
      assert table[..|table|] == table;
      entries := live;
    }

    /** Evicts the least recently used keys until there is room for one more. */
    method MakeRoom()
      requires bounds.Valid()
      modifies this
      ensures entries == Evicted(old(entries), bounds.maxKeys)
    {
      var table := entries;
      var gone := 0;
      while bounds.maxKeys <= |table| - gone
        invariant 0 <= gone <= |table| && (0 < gone ==> gone <= |table| - bounds.maxKeys + 1)
      {
        gone := gone + 1;
      }
      entries := table[gone..];
    }

    /** `allow`. */
    method AllowRequest(key: Id, now: int) returns (allowed: bool)
      requires Valid()
      modifies this
      ensures Valid() && (entries, allowed) == Allow(old(entries), key, now, bounds)
      ensures |old(entries)| <= bounds.maxKeys ==> |entries| <= bounds.maxKeys
    {
      AllowKeepsKeys(entries, key, now, bounds);
      var cutoff := now - bounds.window;
      Expire(cutoff);
      if !HasKey(entries, key) { MakeRoom(); }
      var times := TimesOf(entries, key);
      var rest := times;
      ghost var gone := 0;
      while rest != [] && rest[0] <= cutoff
        invariant gone <= |times| && rest == times[gone..] && FirstAfter(times, gone, cutoff) == FirstAfter(times, 0, cutoff)
        decreases |rest|
      {
        rest := rest[1..];
        gone := gone + 1;
      }
      allowed := |rest| < bounds.limit;
      entries := Without(entries, key) + [Entry(key, if allowed then rest + [now] else rest)];
    }
  }

  ghost predicate UniqueKeys(entries: seq<Entry>) {
    forall i, j :: 0 <= i < j < |entries| ==> entries[i].key != entries[j].key
  }

  // ---------------------------------------------------------------- keys

  lemma {:induction false} UnexpiredMembers(entries: seq<Entry>, cutoff: int, e: Entry)
    ensures e in Unexpired(entries, cutoff) <==> e in entries && Live(e, cutoff)
  {
    if entries != [] {
      UnexpiredMembers(entries[..|entries| - 1], cutoff, e);
      assert entries == entries[..|entries| - 1] + [entries[|entries| - 1]];
    }
  }

  lemma {:induction false} UnexpiredKeeps(entries: seq<Entry>, cutoff: int)
    requires UniqueKeys(entries)
    ensures UniqueKeys(Unexpired(entries, cutoff)) && |Unexpired(entries, cutoff)| <= |entries|
  {
    if entries != [] {
      var rest, last := entries[..|entries| - 1], entries[|entries| - 1];
      UnexpiredKeeps(rest, cutoff);
      forall i | 0 <= i < |Unexpired(rest, cutoff)|
        ensures Unexpired(rest, cutoff)[i].key != last.key
      {
        UnexpiredMembers(rest, cutoff, Unexpired(rest, cutoff)[i]);
      }
    }
  }

  lemma {:induction false} WithoutMembers(entries: seq<Entry>, key: Id, e: Entry)
    ensures e in Without(entries, key) <==> e in entries && e.key != key
  {
    if entries != [] {
      WithoutMembers(entries[..|entries| - 1], key, e);
      assert entries == entries[..|entries| - 1] + [entries[|entries| - 1]];
    }
  }

  lemma {:induction false} WithoutKeeps(entries: seq<Entry>, key: Id)
    requires UniqueKeys(entries)
    ensures UniqueKeys(Without(entries, key)) && |Without(entries, key)| == (if HasKey(entries, key) then |entries| - 1 else |entries|)
    ensures forall i :: 0 <= i < |Without(entries, key)| ==> Without(entries, key)[i].key != key
  {
    if entries != [] {
      var rest, last := entries[..|entries| - 1], entries[|entries| - 1];
      assert entries == rest + [last];
      WithoutKeeps(rest, key);
      assert HasKey(entries, key) <==> HasKey(rest, key) || last.key == key;
      forall i | 0 <= i < |Without(rest, key)|
        ensures Without(rest, key)[i].key != last.key
      {
        WithoutMembers(rest, key, Without(rest, key)[i]);
      }
    }
  }

  lemma EvictedKeeps(entries: seq<Entry>, maxKeys: nat)
    requires UniqueKeys(entries) && 1 <= maxKeys
    ensures var kept := Evicted(entries, maxKeys);
            UniqueKeys(kept) && |kept| < maxKeys && (forall e <- kept :: e in entries) && (|entries| < maxKeys ==> kept == entries)
  {}

  lemma MovedKeeps(kept: seq<Entry>, key: Id, times: seq<int>)
    requires UniqueKeys(kept)
    ensures UniqueKeys(Moved(kept, key, times))
    ensures |Moved(kept, key, times)| == if HasKey(kept, key) then |kept| else |kept| + 1
  {
    WithoutKeeps(kept, key);
  }

  /** One call keeps the keys unique, and never more than `maxKeys` of them. */
  lemma AllowKeepsKeys(entries: seq<Entry>, key: Id, now: int, b: Bounds)
    requires b.Valid() && UniqueKeys(entries)
    ensures UniqueKeys(Allow(entries, key, now, b).0)
    ensures |entries| <= b.maxKeys ==> |Allow(entries, key, now, b).0| <= b.maxKeys
  {
    var live := Unexpired(entries, now - b.window);
    UnexpiredKeeps(entries, now - b.window);
    EvictedKeeps(live, b.maxKeys);
    var kept := Kept(entries, key, now, b);
    var times := Trimmed(TimesOf(kept, key), now - b.window);
    MovedKeeps(kept, key, times);
    MovedKeeps(kept, key, times + [now]);
  }
}
