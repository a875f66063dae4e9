/** When the same change of tags merged twice is not merging it once. */
module TagsAgain {
  import opened Lists
  import opened Tags

  /** What is known of every merged list. */
  ghost predicate Walked(m: seq<string>, before: set<string>, after: set<string>) {
    && Distinct(m)
    && (forall j :: 0 <= j < |m| ==> m[j] != "" && IsNormalized(m[j]) && !(Lower(m[j]) in before && Lower(m[j]) !in after))
  }

  ghost predicate IsNormalized(name: string) {
    exists raw :: name == NormalizeTagName(raw)
  }

  lemma MergedWalked(current: seq<string>, base: seq<string>, next: seq<string>)
    ensures Walked(Merged(current, base, next), KeysOf(base), KeysOf(next))
  {
    var m := Merged(current, base, next);
    MergeKeys(current, base, next);
    MergeOrder(current, base, next);
    forall j | 0 <= j < |m| ensures m[j] != "" && IsNormalized(m[j]) && !(Lower(m[j]) in KeysOf(base) && Lower(m[j]) !in KeysOf(next)) {
      assert Lower(m[j]) in OutKeys(m);
    }
  }

  /** A merged name that isn't tidy ends in a space; tidied it is shorter by that, and then tidy. */
  lemma CutName(name: string)
    requires IsNormalized(name) && !Tidy(name)
    ensures name != "" && name[|name| - 1] == ' ' && NormalizeTagName(name) == name[..|name| - 1] && Tidy(name[..|name| - 1])
  {
    var raw :| name == NormalizeTagName(raw);
    NormalizedIsSingle(raw);
    NormalizeSingle(name);
    var twin := name[..|name| - 1];
    assert Single(twin);
    assert IsSpace(name[|name| - 1]);
    NormalizeSingle(twin);
  }

  lemma TidiedIsTidy(name: string)
    requires IsNormalized(name)
    ensures Tidy(NormalizeTagName(name))
  {
    if !Tidy(name) { CutName(name); }
  }

  lemma TidyEnd(name: string)
    requires IsNormalized(name) && Tidy(name) && name != ""
    ensures Lower(name)[|name| - 1] != ' '
  {
    var raw :| name == NormalizeTagName(raw);
    NormalizedIsSingle(raw);
    NormalizeSingle(name);
  }

  /** The key of a name that isn't tidy, as it stands in a list, is no tidy name's key. */
  lemma CutKey(name: string, other: string)
    requires IsNormalized(name) && !Tidy(name) && IsNormalized(other)
    ensures Lower(name) != TagKey(other)
  {
    CutName(name);
    assert Lower(name)[|name| - 1] == ' ';
    var tidied := NormalizeTagName(other);
    TidiedIsTidy(other);
    if tidied != "" { TidyEnd(tidied); }
  }

  /** How many of the first names are tidy. */
  function FirstCut(m: seq<string>): (i: nat)
    ensures i <= |m|
    ensures forall j :: 0 <= j < i ==> Tidy(m[j])
    ensures i < |m| ==> !Tidy(m[i])
  {
    if m == [] then 0
    else
      var i := FirstCut(m[..|m| - 1]);
      if i == |m| - 1 && Tidy(m[|m| - 1]) then |m| else i
  }

  lemma {:induction false} WalkGrows(out: seq<string>, names: seq<string>, k: nat, before: set<string>, after: set<string>)
    requires Distinct(out) && k <= |names|
    ensures KeepAll(out, names[..k], before, after) <= KeepAll(out, names, before, after)
  {
    if k < |names| {
      var init := names[..|names| - 1];
      assert init[..k] == names[..k];
      WalkGrows(out, init, k, before, after);
      KeepAllKeys(out, init, before, after);
      KeepOneKeys(KeepAll(out, init, before, after), names[|names| - 1], before, after);
    } else {
      assert names[..k] == names;
    }
  }

  /** The second walk keeps the names before the first cut one, and only tidy ones. */
  lemma OwnAgain(m: seq<string>, before: set<string>, after: set<string>)
    requires Walked(m, before, after)
    ensures m[..FirstCut(m)] <= KeepAll([], m, before, after)
    ensures forall j :: 0 <= j < |KeepAll([], m, before, after)| ==> Tidy(KeepAll([], m, before, after)[j])
  {
    var own, i := KeepAll([], m, before, after), FirstCut(m);
    KeepAllSame(m[..i], before, after);
    WalkGrows([], m, i, before, after);
    KeepAllOrder([], m, before, after);
    forall j | 0 <= j < |own| ensures Tidy(own[j]) {
      TidiedIsTidy(m[FirstAt(m, Lower(own[j]))]);
    }
  }

  /**
    * The kept names the cap cut at a space do no harm to a second merge: each one's shortened twin is taken off by
    * the change or kept before it, each is put on by the change in just that spelling, and they come last, in the
    * order the change puts them on.
    */
  predicate CutsSettled(m: seq<string>, base: seq<string>, next: seq<string>) {
    forall j :: 0 <= j < |m| && !Tidy(m[j]) ==> CutSettled(m, base, next, j)
  }

  predicate CutSettled(m: seq<string>, base: seq<string>, next: seq<string>, j: nat)
    requires j < |m|
  {
    var added := Additions(next, KeysOf(base));
    && TagKey(m[j]) in Removed(base, next) + OutKeys(m[..j])
    && KeptFrom(added, m[j])
    && forall k :: j < k < |m| ==> !Tidy(m[k]) && FirstAt(added, Lower(m[j])) < FirstAt(added, Lower(m[k]))
  }

  lemma KeyAt(m: seq<string>, j: nat)
    requires j < |m|
    ensures Lower(m[j]) in OutKeys(m) && TagKey(m[j]) in KeysOf(m)
  {
  }

  /** What the second walk leaves out, it leaves out for its key. */
  lemma LeftOutAgain(m: seq<string>, base: seq<string>, next: seq<string>, i: nat, j: nat)
    requires Walked(m, KeysOf(base), KeysOf(next)) && i <= j < |m|
    requires KeepAll([], m, KeysOf(base), KeysOf(next)) == m[..i]
    ensures !Tidy(m[j]) && TagKey(m[j]) in Removed(base, next) + OutKeys(m[..j])
  {
    var before, after := KeysOf(base), KeysOf(next);
    KeepAllKeys([], m, before, after);
    KeyAt(m, j);
    NotEmptied(m[j]);
    assert TagKey(m[j]) in OutKeys(m[..i]) || TagKey(m[j]) in Removed(base, next);
    if TagKey(m[j]) in OutKeys(m[..i]) {
      var l := Within(m, i, j, TagKey(m[j]));
      assert Lower(m[l]) != Lower(m[j]);
    }
  }

  lemma Within(m: seq<string>, i: nat, j: nat, key: string) returns (l: nat)
    requires i <= j <= |m| && key in OutKeys(m[..i])
    ensures l < i && Lower(m[l]) == key && key in OutKeys(m[..j])
  {
    l :| 0 <= l < i && Lower(m[..i][l]) == key;
    assert m[..j][l] == m[l];
    KeyAt(m[..j], l);
  }

  /** No merged name is a space alone. */
  lemma NotEmptied(name: string)
    requires IsNormalized(name) && name != ""
    ensures TagKey(name) != ""
  {
    var raw :| name == NormalizeTagName(raw);
    NormalizedIsSingle(raw);
    NormalizeSingle(name);
    if |name| == 1 { assert NormalizeTagName(name) == name; }
  }

  lemma SettledWhenAlike(m: seq<string>, base: seq<string>, next: seq<string>)
    requires Walked(m, KeysOf(base), KeysOf(next)) && Merged(m, base, next) == m
    ensures CutsSettled(m, base, next)
  {
    var before, after, i := KeysOf(base), KeysOf(next), FirstCut(m);
    var own, added := KeepAll([], m, before, after), Additions(next, before);
    OwnAgain(m, before, after);
    KeepAllKeys([], m, before, after);
    KeepAllOrder(own, added, before, after);
    assert forall j :: 0 <= j < |own| ==> Tidy(own[j]) && own[j] == m[j];
    assert own == m[..i];
    forall j | 0 <= j < |m| && !Tidy(m[j])
      ensures i <= j && TagKey(m[j]) in Removed(base, next) + OutKeys(m[..j])
    {
      LeftOutAgain(m, base, next, i, j);
    }
    forall j, k | 0 <= j < k < |m| && !Tidy(m[j]) ensures !Tidy(m[k]) {
      LeftOutAgain(m, base, next, i, k);
    }
    forall j | 0 <= j < |m| && !Tidy(m[j]) ensures CutSettled(m, base, next, j) {
    }
  }

  ghost predicate Rising(a: seq<int>) {
    forall j, k :: 0 <= j < k < |a| ==> a[j] < a[k]
  }

  lemma {:induction false} SameRising(a: seq<int>, b: seq<int>)
    requires Rising(a) && Rising(b) && forall n :: n in a <==> n in b
    ensures a == b
    decreases |a|
  {
    if a == [] {
      FirstIn(b);
    } else {
      var x := a[|a| - 1];
      assert x in a;
      LastOfBoth(a, b);
      var c := WithoutLast(a);
      var d := WithoutLast(b);
      forall n ensures n in c <==> n in d {
        assert n in c <==> n in a && n != x;
        assert n in d <==> n in b && n != x;
      }
      SameRising(c, d);
    }
  }

  lemma FirstIn(b: seq<int>)
    ensures b != [] ==> b[0] in b
  {
  }

  lemma LastOfBoth(a: seq<int>, b: seq<int>)
    requires Rising(a) && Rising(b) && (forall n :: n in a <==> n in b) && a != []
    ensures b != [] && a[|a| - 1] == b[|b| - 1]
  {
    assert a[|a| - 1] in a;
    assert b[|b| - 1] in b;
  }

  lemma WithoutLast(a: seq<int>) returns (c: seq<int>)
    requires Rising(a) && a != []
    ensures a == c + [a[|a| - 1]] && Rising(c)
    ensures forall n :: n in c <==> n in a && n != a[|a| - 1]
  {
    c := a[..|a| - 1];
    assert a == c + [a[|a| - 1]];
  }

  /** Where each of the names is first put on. */
  function Ranks(names: seq<string>, added: seq<string>): (r: seq<int>)
    ensures |r| == |names|
  {
    seq(|names|, j requires 0 <= j < |names| => FirstAt(added, Lower(names[j])))
  }

  lemma RanksOf(a: seq<string>, b: seq<string>, added: seq<string>, n: int)
    requires OutKeys(a) <= OutKeys(b) && n in Ranks(a, added)
    ensures n in Ranks(b, added)
  {
    var j :| 0 <= j < |a| && Ranks(a, added)[j] == n;
    KeyAt(a, j);
    var k :| 0 <= k < |b| && Lower(b[k]) == Lower(a[j]);
    assert Ranks(b, added)[k] == n;
  }

  /** Spelled as they are put on, and in that order. */
  ghost predicate Ranked(names: seq<string>, added: seq<string>) {
    (forall j :: 0 <= j < |names| ==> KeptFrom(added, names[j])) && Rising(Ranks(names, added))
  }

  /** Of such names only the keys are left to tell. */
  lemma SameRanked(a: seq<string>, b: seq<string>, added: seq<string>)
    requires OutKeys(a) == OutKeys(b) && Ranked(a, added) && Ranked(b, added)
    ensures a == b
  {
    forall n ensures n in Ranks(a, added) <==> n in Ranks(b, added) {
      if n in Ranks(a, added) { RanksOf(a, b, added, n); }
      if n in Ranks(b, added) { RanksOf(b, a, added, n); }
    }
    SameRising(Ranks(a, added), Ranks(b, added));
    forall j | 0 <= j < |a| ensures a[j] == b[j] {
      assert Ranks(a, added)[j] == Ranks(b, added)[j];
    }
  }

  lemma CutsLast(m: seq<string>, base: seq<string>, next: seq<string>, j: nat)
    requires CutsSettled(m, base, next) && FirstCut(m) <= j < |m|
    ensures !Tidy(m[j]) && CutSettled(m, base, next, j)
  {
    CutsAfter(m, base, next, FirstCut(m), j);
  }

  lemma CutsAfter(m: seq<string>, base: seq<string>, next: seq<string>, i: nat, j: nat)
    requires CutsSettled(m, base, next) && i <= j < |m| && !Tidy(m[i])
    ensures !Tidy(m[j]) && CutSettled(m, base, next, j)
  {
    assert CutSettled(m, base, next, i);
  }

  /** Then the second walk keeps just the tidy names, which come first. */
  lemma OwnStops(m: seq<string>, base: seq<string>, next: seq<string>)
    requires Walked(m, KeysOf(base), KeysOf(next)) && CutsSettled(m, base, next)
    ensures KeepAll([], m, KeysOf(base), KeysOf(next)) == m[..FirstCut(m)]
  {
    var before, after, i := KeysOf(base), KeysOf(next), FirstCut(m);
    var own := KeepAll([], m, before, after);
    OwnAgain(m, before, after);
    KeepAllKeys([], m, before, after);
    assert forall l :: 0 <= l < i ==> own[l] == m[l];
    if i < |own| {
      KeyAt(own, i);
      var j :| 0 <= j < |m| && TagKey(m[j]) == Lower(own[i]);
      var l := KeptBefore(m, base, next, j);
    }
  }

  lemma KeptBefore(m: seq<string>, base: seq<string>, next: seq<string>, j: nat) returns (l: nat)
    requires Walked(m, KeysOf(base), KeysOf(next)) && CutsSettled(m, base, next) && j < |m| && TagKey(m[j]) !in Removed(base, next)
    ensures l < FirstCut(m) && Lower(m[l]) == TagKey(m[j])
  {
    l := j;
    if FirstCut(m) <= j {
      CutsLast(m, base, next, j);
      l := Within(m, j, j, TagKey(m[j]));
      if FirstCut(m) <= l {
        CutsLast(m, base, next, l);
        CutKey(m[l], m[j]);
      }
    }
  }

  lemma AlikeWhenSettled(m: seq<string>, base: seq<string>, next: seq<string>)
    requires Walked(m, KeysOf(base), KeysOf(next)) && CutsSettled(m, base, next)
    requires Added(base, next) - {""} <= OutKeys(m)
    ensures Merged(m, base, next) == m
  {
    var i, added := FirstCut(m), Additions(next, KeysOf(base));
    OwnStops(m, base, next);
    var again := KeepAll(m[..i], added, KeysOf(base), KeysOf(next));
    TailRanked(m[..i], added, KeysOf(base), KeysOf(next));
    AddedAgain(m, base, next);
    CutsRanked(m, base, next);
    SameRanked(again[i..], m[i..], added);
    Rejoined(again, m, i);
  }

  lemma Rejoined(a: seq<string>, b: seq<string>, i: nat)
    requires i <= |a| && i <= |b| && b[..i] <= a && a[i..] == b[i..]
    ensures a == b
  {
    assert a == a[..i] + a[i..] && b == b[..i] + b[i..];
  }

  lemma TailRanked(out: seq<string>, added: seq<string>, before: set<string>, after: set<string>)
    requires Distinct(out)
    ensures var r := KeepAll(out, added, before, after); out <= r && Ranked(r[|out|..], added)
  {
    KeepAllOrder(out, added, before, after);
  }

  lemma CutsRanked(m: seq<string>, base: seq<string>, next: seq<string>)
    requires CutsSettled(m, base, next)
    ensures Ranked(m[FirstCut(m)..], Additions(next, KeysOf(base)))
  {
    var i, added := FirstCut(m), Additions(next, KeysOf(base));
    forall j | 0 <= j < |m[i..]| ensures m[i..][j] == m[i + j] && !Tidy(m[i + j]) && KeptFrom(added, m[i..][j]) {
      CutsLast(m, base, next, i + j);
    }
    var ranks := Ranks(m[i..], added);
    forall j, k | 0 <= j < k < |ranks| ensures ranks[j] < ranks[k] {
      CutsLast(m, base, next, i + j);
      assert m[i..][j] == m[i + j] && m[i..][k] == m[i + k];
    }
  }

  /** And the change puts the others on again. */
  lemma AddedAgain(m: seq<string>, base: seq<string>, next: seq<string>)
    requires Walked(m, KeysOf(base), KeysOf(next)) && CutsSettled(m, base, next)
    requires Added(base, next) - {""} <= OutKeys(m)
    ensures var i, added := FirstCut(m), Additions(next, KeysOf(base));
      var again := KeepAll(m[..i], added, KeysOf(base), KeysOf(next));
      |again| >= i && OutKeys(again[i..]) == OutKeys(m[i..])
  {
    var before, after, i := KeysOf(base), KeysOf(next), FirstCut(m);
    var added := Additions(next, before);
    KeepAllKeys(m[..i], added, before, after);
    AdditionsKeys(next, before);
    var again := KeepAll(m[..i], added, before, after);
    TailKeys(again, i);
    TailKeys(m, i);
    assert again[..i] == m[..i];
    forall key | key in OutKeys(m[i..]) ensures key in Added(base, next) && key != "" {
      CutIsAdded(m, base, next, key);
    }
  }

  lemma CutIsAdded(m: seq<string>, base: seq<string>, next: seq<string>, key: string)
    requires Walked(m, KeysOf(base), KeysOf(next)) && CutsSettled(m, base, next) && key in OutKeys(m[FirstCut(m)..])
    ensures key in Added(base, next) && key != ""
  {
    var i := FirstCut(m);
    var j :| 0 <= j < |m[i..]| && Lower(m[i..][j]) == key;
    CutsLast(m, base, next, i + j);
    FirstAtFinds(Additions(next, KeysOf(base)), key);
    AdditionsKeys(next, KeysOf(base));
  }

  lemma TailKeys(m: seq<string>, i: nat)
    requires Distinct(m) && i <= |m|
    ensures OutKeys(m[i..]) == OutKeys(m) - OutKeys(m[..i])
  {
    forall k | k in OutKeys(m[i..]) ensures k in OutKeys(m) && k !in OutKeys(m[..i]) {
      var j :| 0 <= j < |m[i..]| && Lower(m[i..][j]) == k;
      assert Lower(m[i + j]) == k;
    }
    forall k | k in OutKeys(m) && k !in OutKeys(m[..i]) ensures k in OutKeys(m[i..]) {
      var j :| 0 <= j < |m| && Lower(m[j]) == k;
      assert forall l :: 0 <= l < i ==> m[..i][l] == m[l] && Lower(m[l]) in OutKeys(m[..i]);
      assert m[i..][j - i] == m[j];
    }
  }

  /** Merging the same change twice is merging it once exactly when the cut names it leaves are settled. */
  lemma MergeTwiceExactly(current: seq<string>, base: seq<string>, next: seq<string>)
    ensures var once := Merged(current, base, next);
      Merged(once, base, next) == once <==> CutsSettled(once, base, next)
  {
    var once := Merged(current, base, next);
    MergedWalked(current, base, next);
    MergeKeys(current, base, next);
    if Merged(once, base, next) == once { SettledWhenAlike(once, base, next); }
    if CutsSettled(once, base, next) { AlikeWhenSettled(once, base, next); }
  }

  /** The same change sent again changes nothing, names, order and all, when no name is cut at a space. */
  lemma MergeTwice(current: seq<string>, base: seq<string>, next: seq<string>)
    requires NoneCut(current) && NoneCut(next)
    ensures Merged(Merged(current, base, next), base, next) == Merged(current, base, next)
  {
    MergedTidy(current, base, next);
    MergeTwiceExactly(current, base, next);
  }

  lemma OneMerged(name: string)
    requires NormalizeTagName(name) != ""
    ensures Merged([], [], [name]) == [NormalizeTagName(name)]
  {
    assert [name][..0] == [];
  }

  /** A new name put on alone: one tag after the second merge too, if and only if the cap doesn't cut it at a space. */
  lemma OneNameTwice(name: string)
    requires NormalizeTagName(name) != ""
    ensures Merged(Merged([], [], [name]), [], [name]) == Merged([], [], [name]) <==> !CutAtSpace(name)
  {
    var once := Merged([], [], [name]);
    OneMerged(name);
    TidyTwice(name);
    MergeTwiceExactly([], [], [name]);
    if CutAtSpace(name) {
      assert once[..0] == [];
      assert !CutSettled(once, [], [name], 0);
    }
  }

  /** There are such names. */
  lemma CutTwice() returns (name: string)
    ensures Merged(Merged([], [], [name]), [], [name]) != Merged([], [], [name])
  {
    name := seq(39, _ => 'a') + " b";
    CollapseFixes(name);
    OneNameTwice(name);
  }
}
