/**
  * Room for the queue on a full disk (Extension/src/queue.js, Extension/src/read-cache.js): the saved copies of
  * screens give way to a change waiting to sync, the oldest first.
  */
module StorageRoom {
  import opened Changes

  const CACHE_PREFIX := "cache:"
  const KEY := "syncQueue"
  const MAX_CACHE_ENTRIES := 200

  /** A stored value; saved copies carry the time they were saved. */
  datatype Value = Value(cachedAt: Option<int>, data: string)

  type Contents = map<string, Value>

  predicate IsCopy(key: string) {
    CACHE_PREFIX <= key
  }

  function Copies(m: Contents): set<string> {
    set k | k in m && IsCopy(k)
  }

  function CachedAt(m: Contents, key: string): int {
    if key in m && m[key].cachedAt.Some? then m[key].cachedAt.value else 0
  }

  function WithoutCopies(m: Contents): Contents {
    map k | k in m && !IsCopy(k) :: m[k]
  }

  function Least(a: nat, b: nat): nat {
    if a < b then a else b
  }

  ghost predicate Within(m: Contents, n: Contents) {
    forall k :: k in m ==> k in n && m[k] == n[k]
  }

  /** `now` is `was` without some of its copies, none of them newer than one that stays. */
  ghost predicate OldestGone(was: Contents, now: Contents) {
    && Within(now, was)
    && (forall k :: k in was && !IsCopy(k) ==> k in now)
    && (forall d, k :: d in Copies(was) && d !in now && k in Copies(now) ==> CachedAt(was, d) <= CachedAt(was, k))
  }

  ghost predicate Pruned(was: Contents, now: Contents, keep: nat) {
    OldestGone(was, now) && |Copies(now)| == Least(keep, |Copies(was)|)
  }

  /** Whether contents fit in the storage: dropping something never makes them not fit. */
  ghost predicate IsCapacity(fits: Contents -> bool) {
    forall m, n :: Within(m, n) && fits(n) ==> fits(m)
  }

  // ---- Newest first -------------------------------------------------------------------------------

  predicate NewestFirst(m: Contents, keys: seq<string>) {
    forall a, b :: 0 <= a < b < |keys| ==> CachedAt(m, keys[a]) >= CachedAt(m, keys[b])
  }

  predicate Distinct(keys: seq<string>) {
    forall a, b :: 0 <= a < b < |keys| ==> keys[a] != keys[b]
  }

  function KeySet(keys: seq<string>): set<string> {
    set n | 0 <= n < |keys| :: keys[n]
  }

  function Insert(m: Contents, k: string, keys: seq<string>): seq<string> {
    if keys == [] || CachedAt(m, keys[0]) < CachedAt(m, k) then [k] + keys else [keys[0]] + Insert(m, k, keys[1..])
  }

  predicate Sorted(m: Contents, keys: seq<string>) {
    NewestFirst(m, keys) && Distinct(keys)
  }

  /** One more before others that are all older. */
  lemma SortedCons(m: Contents, first: string, rest: seq<string>)
    requires Sorted(m, rest) && forall x :: x in rest ==> CachedAt(m, first) >= CachedAt(m, x) && x != first
    ensures Sorted(m, [first] + rest)
  {
    var all := [first] + rest;
    forall b | 0 < b < |all| ensures all[b] in rest && all[b] == rest[b - 1] { }
  }

  lemma SortedTail(m: Contents, keys: seq<string>)
    requires Sorted(m, keys) && keys != []
    ensures Sorted(m, keys[1..])
    ensures forall x :: x in keys[1..] ==> x in keys && CachedAt(m, keys[0]) >= CachedAt(m, x) && x != keys[0]
    ensures keys == [keys[0]] + keys[1..]
  {
  }

  lemma {:induction false} InsertIs(m: Contents, k: string, keys: seq<string>)
    requires NewestFirst(m, keys) && Distinct(keys) && k !in keys
    ensures var r := Insert(m, k, keys);
      NewestFirst(m, r) && Distinct(r) && |r| == |keys| + 1 && forall x :: x in r <==> x == k || x in keys
  {
    if keys == [] {
    } else {
      SortedTail(m, keys);
      if CachedAt(m, keys[0]) < CachedAt(m, k) {
        SortedCons(m, k, keys);
      } else {
        InsertIs(m, k, keys[1..]);
        SortedCons(m, keys[0], Insert(m, k, keys[1..]));
      }
    }
  }

  lemma KeySetLast(keys: seq<string>, last: string)
    ensures KeySet(keys + [last]) == KeySet(keys) + {last}
  {
    var all := keys + [last];
    forall x | x in KeySet(keys) + {last} ensures x in KeySet(all) {
      if x == last {
        assert all[|keys|] == x;
      } else {
        var n :| 0 <= n < |keys| && keys[n] == x;
        assert all[n] == x;
      }
    }
  }

  lemma {:induction false} KeySetSize(keys: seq<string>)
    requires Distinct(keys)
    ensures |KeySet(keys)| == |keys|
  {
    if keys != [] {
      var init, last := keys[..|keys| - 1], keys[|keys| - 1];
      KeySetSize(init);
      KeySetLast(init, last);
      assert keys == init + [last];
    }
  }

  /** A list's keys are those of its first part and of the rest, and none is in both. */
  lemma KeySetParts(keys: seq<string>, n: nat)
    requires Distinct(keys) && n <= |keys|
    ensures KeySet(keys[..n]) !! KeySet(keys[n..]) && KeySet(keys) == KeySet(keys[..n]) + KeySet(keys[n..])
  {
    forall k | k in KeySet(keys[..n]) ensures k in KeySet(keys) && k !in KeySet(keys[n..]) {
      var a :| 0 <= a < n && keys[..n][a] == k;
      assert keys[a] == k;
    }
    forall k | k in KeySet(keys[n..]) ensures k in KeySet(keys) {
      var b :| 0 <= b < |keys| - n && keys[n..][b] == k;
      assert keys[n + b] == k;
    }
    forall k | k in KeySet(keys) ensures k in KeySet(keys[..n]) + KeySet(keys[n..]) {
      var a :| 0 <= a < |keys| && keys[a] == k;
      if a < n { assert keys[..n][a] == k; } else { assert keys[n..][a - n] == k; }
    }
  }

  lemma OlderAfter(m: Contents, keys: seq<string>, n: nat, d: string, k: string)
    requires NewestFirst(m, keys) && n <= |keys| && d in KeySet(keys[n..]) && k in KeySet(keys[..n])
    ensures CachedAt(m, d) <= CachedAt(m, k)
  {
    var a :| 0 <= a < n && keys[..n][a] == k;
    var b :| 0 <= b < |keys| - n && keys[n..][b] == d;
    assert keys[a] == k && keys[n + b] == d;
  }

  /** Keeping the first `keep` of the copies, newest first, is pruning. */
  lemma KeepNewest(m: Contents, keys: seq<string>, keep: nat)
    requires NewestFirst(m, keys) && Distinct(keys) && KeySet(keys) == Copies(m) && keep <= |keys|
    ensures Pruned(m, m - KeySet(keys[keep..]), keep)
    ensures |Copies(m)| - |Copies(m - KeySet(keys[keep..]))| == |keys| - keep
  {
    var now, kept := m - KeySet(keys[keep..]), keys[..keep];
    KeySetSize(keys);
    KeySetSize(kept);
    KeySetParts(keys, keep);
    assert Copies(now) == KeySet(kept);
    forall d, k | d in Copies(m) && d !in now && k in Copies(now) ensures CachedAt(m, d) <= CachedAt(m, k) {
      OlderAfter(m, keys, keep, d, k);
    }
  }

  /** Pruning what is pruned already. */
  lemma GoneTwice(a: Contents, b: Contents, c: Contents)
    requires OldestGone(a, b) && OldestGone(b, c)
    ensures OldestGone(a, c)
  {
  }

  class Storage {
    var entries: Contents

    /** The saved copies, newest first, those of one time in any order. */
    method NewestCopies() returns (keys: seq<string>)
      ensures NewestFirst(entries, keys) && Distinct(keys) && KeySet(keys) == Copies(entries)
    {
      keys := [];
      var left := Copies(entries);
      while left != {}
        invariant NewestFirst(entries, keys) && Distinct(keys)
        invariant left <= Copies(entries) && forall k :: k in keys <==> k in Copies(entries) && k !in left
      {
        var k :| k in left;
        InsertIs(entries, k, keys);
        keys, left := Insert(entries, k, keys), left - {k};
      }
    }

    /** Keep only the `keep` most recently saved copies; how many were removed. */
    method PruneCache(keep: int) returns (dropped: nat)
      modifies this
      ensures Pruned(old(entries), entries, if keep < 0 then 0 else keep)
      ensures dropped == |Copies(old(entries))| - |Copies(entries)|
      ensures dropped == 0 ==> entries == old(entries)
    {
      var keys := NewestCopies();
      var kept := if keep < 0 then 0 else Least(keep, |keys|);
      KeySetSize(keys);
      KeepNewest(entries, keys, kept);
      var drop := KeySet(keys[kept..]);
      entries := entries - drop;
      return |keys| - kept;
    }

    /** One write, taken only when everything still fits. */
    method Set(key: string, value: Value, fits: Contents -> bool) returns (ok: bool)
      modifies this
      ensures ok == fits(old(entries)[key := value])
      ensures entries == if ok then old(entries)[key := value] else old(entries)
    {
      ok := fits(entries[key := value]);
      if ok {
        entries := entries[key := value];
      }
    }

    /**
      * Write the queue; the older half of the copies give way when it doesn't fit, then all of them. It fails
      * only when it doesn't fit with no copies left, or the copies can't be dropped (`pruneFails`).
      */
    method SaveQueue(next: Value, fits: Contents -> bool, pruneFails: seq<bool>) returns (ok: bool, ghost left: Contents, ghost half: Contents)
      requires |pruneFails| == 3
      modifies this
      ensures OldestGone(old(entries), left)
      ensures entries == if ok then left[KEY := next] else left
      ensures fits(old(entries)[KEY := next]) ==> ok && left == old(entries)
      ensures !ok && !pruneFails[2] ==> Copies(left) == {}
      ensures |Copies(left)| < Least(MAX_CACHE_ENTRIES / 2, |Copies(old(entries))|) && !pruneFails[1] ==>
        Pruned(old(entries), half, MAX_CACHE_ENTRIES / 2) && !fits(half[KEY := next])
      ensures IsCapacity(fits) && !pruneFails[2] ==> (ok <==> fits(WithoutCopies(old(entries))[KEY := next]))
    {
      var keeps := [None, Some(MAX_CACHE_ENTRIES / 2), Some(0)];
      left, half := entries, entries;
      for n := 0 to 3
        invariant entries == left && OldestGone(old(entries), left)
        invariant n > 0 ==> !fits(left[KEY := next]) && !fits(old(entries)[KEY := next])
        invariant n <= 1 ==> left == old(entries)
        invariant n > 1 && !pruneFails[1] ==> Pruned(old(entries), half, MAX_CACHE_ENTRIES / 2) && !fits(half[KEY := next])
        invariant n == 2 ==> |Copies(left)| >= Least(MAX_CACHE_ENTRIES / 2, |Copies(old(entries))|)
        invariant n == 3 && !pruneFails[2] ==> Copies(left) == {}
      {
        var before := entries;
        if keeps[n].Some? {
          if pruneFails[n] {
            continue;
          }
          var dropped := PruneCache(keeps[n].value);
          left := entries;
          GoneTwice(old(entries), before, left);
          if n == 1 {
            half := left;
          }
          if dropped == 0 {
            continue;
          }
        }
        ok := Set(KEY, next, fits);
        if ok {
          FitsBare(old(entries), left, next, fits);
          return;
        }
      }
      ok := false;
      FitsBare(old(entries), left, next, fits);
    }
  }

  lemma FitsBare(was: Contents, left: Contents, next: Value, fits: Contents -> bool)
    requires OldestGone(was, left)
    ensures IsCapacity(fits) && fits(left[KEY := next]) ==> fits(WithoutCopies(was)[KEY := next])
    ensures Copies(left) == {} ==> WithoutCopies(was)[KEY := next] == left[KEY := next]
  {
    assert Within(WithoutCopies(was)[KEY := next], left[KEY := next]);
    if Copies(left) == {} {
      forall k | k in left ensures !IsCopy(k) { assert k !in Copies(left); }
      assert WithoutCopies(was) == left;
    }
  }
}
