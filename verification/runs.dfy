/** Lists cut into runs, wherever an element does not join the one before it. */
module Runs {
  function Flat<T>(groups: seq<seq<T>>): seq<T> {
    if groups == [] then [] else Flat(groups[..|groups| - 1]) + groups[|groups| - 1]
  }

  predicate IsGroup<T>(joins: (T, T) -> bool, g: seq<T>) {
    g != [] && forall n :: 0 < n < |g| ==> joins(g[n - 1], g[n])
  }

  /** Every group is one run, and the next entry did not join it. */
  predicate AreGroups<T>(joins: (T, T) -> bool, groups: seq<seq<T>>) {
    && (forall n :: 0 <= n < |groups| ==> IsGroup(joins, groups[n]))
    && forall n :: 0 < n < |groups| && groups[n - 1] != [] && groups[n] != [] ==> !joins(groups[n - 1][|groups[n - 1]| - 1], groups[n][0])
  }

  /** The rows, newest first, in runs that read as one line each. */
  method Grouped<T>(joins: (T, T) -> bool, entries: seq<T>) returns (groups: seq<seq<T>>)
    ensures Flat(groups) == entries && AreGroups(joins, groups)
  {
    groups := [];
    for n := 0 to |entries|
      invariant Flat(groups) == entries[..n] && AreGroups(joins, groups) && (n > 0 ==> groups != [])
    {
      var e := entries[n];
      assert entries[..n + 1] == entries[..n] + [e];
      if groups != [] && joins(groups[|groups| - 1][|groups[|groups| - 1]| - 1], e) {
        GroupGrows(joins, groups, e);
        groups := groups[..|groups| - 1] + [groups[|groups| - 1] + [e]];
      } else {
        GroupStarts(joins, groups, e);
        groups := groups + [[e]];
      }
    }
    assert entries[..|entries|] == entries;
  }

  lemma GroupGrows<T>(joins: (T, T) -> bool, groups: seq<seq<T>>, e: T)
    requires AreGroups(joins, groups) && groups != [] && joins(groups[|groups| - 1][|groups[|groups| - 1]| - 1], e)
    ensures var next := groups[..|groups| - 1] + [groups[|groups| - 1] + [e]];
      AreGroups(joins, next) && Flat(next) == Flat(groups) + [e]
  {
    var last, init := groups[|groups| - 1], groups[..|groups| - 1];
    var next := init + [last + [e]];
    assert IsGroup(joins, last);
    assert IsGroup(joins, last + [e]) by {
      forall n | 0 < n < |last + [e]| ensures joins((last + [e])[n - 1], (last + [e])[n]) { }
    }
    assert next[..|next| - 1] == init;
    assert Flat(init) + (last + [e]) == Flat(init) + last + [e];
  }

  lemma GroupStarts<T>(joins: (T, T) -> bool, groups: seq<seq<T>>, e: T)
    requires AreGroups(joins, groups)
    requires groups == [] || !joins(groups[|groups| - 1][|groups[|groups| - 1]| - 1], e)
    ensures AreGroups(joins, groups + [[e]]) && Flat(groups + [[e]]) == Flat(groups) + [e]
  {
    var next := groups + [[e]];
    assert next[..|next| - 1] == groups;
  }

  lemma LastGroup<T>(joins: (T, T) -> bool, groups: seq<seq<T>>)
    requires AreGroups(joins, groups) && groups != []
    ensures var last := groups[|groups| - 1];
      last != [] && Flat(groups) != [] && Flat(groups)[|Flat(groups)| - 1] == last[|last| - 1]
  {
    assert IsGroup(joins, groups[|groups| - 1]);
  }

  /** The groups, without the last entry. */
  function WithoutLast<T>(groups: seq<seq<T>>): seq<seq<T>>
    requires groups != [] && groups[|groups| - 1] != []
  {
    var last, init := groups[|groups| - 1], groups[..|groups| - 1];
    if |last| == 1 then init else init + [last[..|last| - 1]]
  }

  lemma ShorterGroup<T>(joins: (T, T) -> bool, g: seq<T>, n: nat)
    requires IsGroup(joins, g) && 0 < n <= |g|
    ensures IsGroup(joins, g[..n])
  {
    var h := g[..n];
    forall m | 0 < m < |h| ensures joins(h[m - 1], h[m]) { assert joins(g[m - 1], g[m]); }
  }

  lemma FlatLast<T>(groups: seq<seq<T>>, g: seq<T>)
    ensures Flat(groups + [g]) == Flat(groups) + g
  {
    assert (groups + [g])[..|groups|] == groups;
  }

  lemma GroupShrinks<T>(joins: (T, T) -> bool, groups: seq<seq<T>>, less: seq<T>)
    requires AreGroups(joins, groups) && groups != [] && groups[|groups| - 1] != [] && IsGroup(joins, less) && less[0] == groups[|groups| - 1][0]
    ensures AreGroups(joins, groups[..|groups| - 1] + [less])
  {
    var now := groups[..|groups| - 1] + [less];
    forall n | 0 < n < |now| && now[n - 1] != [] ensures !joins(now[n - 1][|now[n - 1]| - 1], now[n][0]) {
      assert now[n - 1] == groups[n - 1] && now[n][0] == groups[n][0];
      assert IsGroup(joins, groups[n]);
    }
  }

  lemma WithoutLastIs<T>(joins: (T, T) -> bool, groups: seq<seq<T>>)
    requires AreGroups(joins, groups) && groups != []
    ensures IsGroup(joins, groups[|groups| - 1])
    ensures AreGroups(joins, WithoutLast(groups)) && Flat(WithoutLast(groups)) + [groups[|groups| - 1][|groups[|groups| - 1]| - 1]] == Flat(groups)
  {
    var last, init := groups[|groups| - 1], groups[..|groups| - 1];
    assert IsGroup(joins, last);
    assert forall n :: 0 <= n < |init| ==> init[n] == groups[n];
    if |last| > 1 {
      var less := last[..|last| - 1];
      ShorterGroup(joins, last, |last| - 1);
      FlatLast(init, less);
      GroupShrinks(joins, groups, less);
      assert less + [last[|last| - 1]] == last;
      assert Flat(init) + less + [last[|last| - 1]] == Flat(init) + last;
    } else {
      assert last == [last[0]];
    }
  }

  lemma SameInit<T>(x: seq<T>, y: seq<T>, e: T, f: T)
    requires x + [e] == y + [f]
    ensures x == y && e == f
  {
    assert |x| == |y| && (x + [e])[|x|] == e && (y + [f])[|y|] == f;
    assert x == (x + [e])[..|x|] && y == (y + [f])[..|y|];
  }

  /** There is one way to group a list of entries. */
  lemma {:induction false} OneGrouping<T>(joins: (T, T) -> bool, a: seq<seq<T>>, b: seq<seq<T>>)
    requires AreGroups(joins, a) && AreGroups(joins, b) && Flat(a) == Flat(b)
    ensures a == b
    decreases |Flat(a)|
  {
    if a == [] || b == [] {
      if a != [] { LastGroup(joins, a); }
      if b != [] { LastGroup(joins, b); }
    } else {
      LastGroup(joins, a);
      LastGroup(joins, b);
      WithoutLastIs(joins, a);
      WithoutLastIs(joins, b);
      SameInit(Flat(WithoutLast(a)), Flat(WithoutLast(b)), a[|a| - 1][|a[|a| - 1]| - 1], b[|b| - 1][|b[|b| - 1]| - 1]);
      OneGrouping(joins, WithoutLast(a), WithoutLast(b));
      SameLast(joins, a, b);
    }
  }

  /** The groups again, from those without the last entry. */
  lemma WithLast<T>(joins: (T, T) -> bool, a: seq<seq<T>>)
    requires AreGroups(joins, a) && a != [] && IsGroup(joins, a[|a| - 1])
    ensures var w, last := WithoutLast(a), a[|a| - 1];
      var e := last[|last| - 1];
      a == if |last| > 1 then w[..|w| - 1] + [w[|w| - 1] + [e]] else w + [[e]]
  {
    var last, init := a[|a| - 1], a[..|a| - 1];
    assert a == init + [last];
    assert last == last[..|last| - 1] + [last[|last| - 1]];
    if |last| > 1 {
      var w := init + [last[..|last| - 1]];
      assert w[..|w| - 1] == init;
    }
  }

  lemma SameLast<T>(joins: (T, T) -> bool, a: seq<seq<T>>, b: seq<seq<T>>)
    requires AreGroups(joins, a) && AreGroups(joins, b) && a != [] && b != [] && IsGroup(joins, a[|a| - 1]) && IsGroup(joins, b[|b| - 1])
    requires WithoutLast(a) == WithoutLast(b) && a[|a| - 1][|a[|a| - 1]| - 1] == b[|b| - 1][|b[|b| - 1]| - 1]
    ensures a == b
  {
    WithLast(joins, a);
    WithLast(joins, b);
    if WithoutLast(a) != [] {
      JoinsBefore(joins, a);
      JoinsBefore(joins, b);
    }
  }

  /** Whether the last entry is in a group with others: when it joins the one before. */
  lemma JoinsBefore<T>(joins: (T, T) -> bool, a: seq<seq<T>>)
    requires AreGroups(joins, a) && a != [] && IsGroup(joins, a[|a| - 1]) && WithoutLast(a) != []
    ensures var w, last := WithoutLast(a), a[|a| - 1];
      w[|w| - 1] != [] && (|last| > 1 <==> joins(w[|w| - 1][|w[|w| - 1]| - 1], last[|last| - 1]))
  {
    var last := a[|a| - 1];
    if |last| == 1 {
      assert IsGroup(joins, a[|a| - 2]);
    } else {
      assert joins(last[|last| - 2], last[|last| - 1]);
    }
  }
}
