/** Lists kept in order: the filter and map the queue, the tags and the overlays are made of. */
module Lists {

  function Filter<T>(s: seq<T>, keep: T -> bool): (r: seq<T>)
    ensures |r| <= |s|
  {
    if s == [] then []
    else
      var rest := Filter(s[..|s| - 1], keep);
      if keep(s[|s| - 1]) then rest + [s[|s| - 1]] else rest
  }

  function Mapped<T, U>(s: seq<T>, f: T -> U): (r: seq<U>)
    ensures |r| == |s|
    ensures forall i :: 0 <= i < |s| ==> r[i] == f(s[i])
  {
    seq(|s|, i requires 0 <= i < |s| => f(s[i]))
  }

  lemma {:induction false} FilterMembers<T>(s: seq<T>, keep: T -> bool)
    ensures forall x :: x in Filter(s, keep) <==> x in s && keep(x)
    ensures |Filter(s, keep)| == |s| ==> Filter(s, keep) == s
  {
    if s != [] {
      FilterMembers(s[..|s| - 1], keep);
      assert s == s[..|s| - 1] + [s[|s| - 1]];
    }
  }

  lemma {:induction false} FilterAll<T>(s: seq<T>, keep: T -> bool)
    requires forall x :: x in s ==> keep(x)
    ensures Filter(s, keep) == s
  {
    if s != [] {
      FilterAll(s[..|s| - 1], keep);
      assert s == s[..|s| - 1] + [s[|s| - 1]];
    }
  }

  lemma {:induction false} FilterConcat<T>(s: seq<T>, t: seq<T>, keep: T -> bool)
    ensures Filter(s + t, keep) == Filter(s, keep) + Filter(t, keep)
  {
    if t == [] {
      assert s + t == s;
    } else {
      FilterConcat(s, t[..|t| - 1], keep);
      assert (s + t)[..|s + t| - 1] == s + t[..|t| - 1];
    }
  }

  /** A map that keeps the filtered things as they are, and the others filtered out, doesn't show. */
  lemma {:induction false} FilterMapped<T>(s: seq<T>, f: T -> T, keep: T -> bool)
    requires forall x :: x in s ==> (keep(f(x)) <==> keep(x)) && (keep(x) ==> f(x) == x)
    ensures Filter(Mapped(s, f), keep) == Filter(s, keep)
  {
    if s != [] {
      var init := s[..|s| - 1];
      FilterMapped(init, f, keep);
      assert Mapped(s, f)[..|s| - 1] == Mapped(init, f);
      assert s[|s| - 1] in s;
    }
  }

  lemma {:induction false} FilterTwice<T>(s: seq<T>, keep: T -> bool, also: T -> bool)
    requires forall x :: x in s && also(x) ==> keep(x)
    ensures Filter(Filter(s, keep), also) == Filter(s, also)
  {
    if s != [] {
      var init := s[..|s| - 1];
      FilterTwice(init, keep, also);
      assert s[|s| - 1] in s;
      var rest := Filter(init, keep);
      if keep(s[|s| - 1]) {
        assert (rest + [s[|s| - 1]])[..|rest|] == rest;
      }
    }
  }

  lemma TwoFirst<T>(a: T, b: T, rest: seq<T>)
    ensures [a, b] + rest == [a] + ([b] + rest)
  {
  }

  /** What comes after both of two growths. */
  lemma GrownTwice<T>(a: seq<T>, b: seq<T>, c: seq<T>, before: seq<T>, more: seq<T>)
    requires b == a + before && c == b + more
    ensures c == a + (before + more)
  {
  }
}
