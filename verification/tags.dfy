/** A task's tags (Extension/src/tags.js): tidying a name, and a change of tags merged over the current list. */
module Tags {
  import opened Lists

  const MAX_TAG_LENGTH := 40

  /** White space as `\s` and `trim` see it. */
  predicate IsSpace(c: char) {
    || c in {' ', '\t', '\n', '\r'}
    || c as int in {0x0B, 0x0C, 0xA0, 0x1680, 0x2028, 0x2029, 0x202F, 0x205F, 0x3000, 0xFEFF}
    || 0x2000 <= c as int <= 0x200A
  }

  function DropLeading(s: string): string {
    if s != "" && IsSpace(s[0]) then DropLeading(s[1..]) else s
  }

  function DropTrailing(s: string): string {
    if s != "" && IsSpace(s[|s| - 1]) then DropTrailing(s[..|s| - 1]) else s
  }

  /** Every run of white space becomes one space. */
  function Collapse(s: string): string
    decreases |s|
  {
    if s == "" then ""
    else if !IsSpace(s[0]) then [s[0]] + Collapse(s[1..])
    else
      DropLeadingShortens(s[1..]);
      " " + Collapse(DropLeading(s[1..]))
  }

  lemma DropLeadingShortens(s: string)
    ensures |DropLeading(s)| <= |s|
    ensures DropLeading(s) == "" || !IsSpace(DropLeading(s)[0])
  {
  }

  function Take(s: string, n: nat): string {
    if |s| <= n then s else s[..n]
  }

  function NormalizeTagName(raw: string): string {
    Take(Collapse(DropTrailing(DropLeading(raw))), MAX_TAG_LENGTH)
  }

  function LowerChar(c: char): char {
    if 'A' <= c <= 'Z' then (c as int + 32) as char else c
  }

  function Lower(s: string): string {
    seq(|s|, i requires 0 <= i < |s| => LowerChar(s[i]))
  }

  /** What makes two names one tag: the tidied name, its case aside. */
  function TagKey(name: string): string {
    Lower(NormalizeTagName(name))
  }

  function KeysOf(names: seq<string>): set<string> {
    set i | 0 <= i < |names| :: TagKey(names[i])
  }

  /** The keys of names that are tidy already. */
  function OutKeys(out: seq<string>): set<string> {
    set i | 0 <= i < |out| :: Lower(out[i])
  }

  /** What one step of the merge keeps: not blank, not there yet, not taken off by the change. */
  function KeepOne(out: seq<string>, raw: string, before: set<string>, after: set<string>): seq<string> {
    var name := NormalizeTagName(raw);
    var key := Lower(name);
    if name == "" || key in OutKeys(out) || (key in before && key !in after) then out else out + [name]
  }

  function KeepAll(out: seq<string>, names: seq<string>, before: set<string>, after: set<string>): seq<string> {
    if names == [] then out
    else KeepOne(KeepAll(out, names[..|names| - 1], before, after), names[|names| - 1], before, after)
  }

  function Outside(keys: set<string>): string -> bool {
    name => TagKey(name) !in keys
  }

  /** The names a change from `base` to `next` puts on: those of `next` whose key `base` lacks. */
  function Additions(next: seq<string>, before: set<string>): seq<string> {
    Filter(next, Outside(before))
  }

  function Merged(current: seq<string>, base: seq<string>, next: seq<string>): seq<string> {
    var before, after := KeysOf(base), KeysOf(next);
    KeepAll(KeepAll([], current, before, after), Additions(next, before), before, after)
  }

  method TagKeySet(names: seq<string>) returns (keys: set<string>)
    ensures keys == KeysOf(names)
  {
    keys := {};
    for i := 0 to |names|
      invariant keys == KeysOf(names[..i])
    {
      assert names[..i + 1] == names[..i] + [names[i]];
      KeysOfAppend(names[..i], names[i]);
      keys := keys + {TagKey(names[i])};
    }
    assert names[..|names|] == names;
  }

  /** The merge as it runs: one walk over the current names, one over the added ones. */
  method MergeTagChange(current: seq<string>, base: seq<string>, next: seq<string>) returns (out: seq<string>)
    ensures out == Merged(current, base, next)
  {
    var before := TagKeySet(base);
    var after := TagKeySet(next);
    var seen: set<string> := {};
    out := [];
    for i := 0 to |current|
      invariant out == KeepAll([], current[..i], before, after)
      invariant seen == OutKeys(out)
    {
      assert current[..i + 1][..i] == current[..i];
      out, seen := Keep(out, seen, current[i], before, after);
    }
    assert current[..|current|] == current;
    ghost var own := out;
    for i := 0 to |next|
      invariant out == KeepAll(own, Additions(next[..i], before), before, after)
      invariant seen == OutKeys(out)
    {
      assert next[..i + 1][..i] == next[..i];
      if TagKey(next[i]) !in before {
        ghost var added := Additions(next[..i], before);
        assert (added + [next[i]])[..|added|] == added;
        out, seen := Keep(out, seen, next[i], before, after);
      }
    }
    assert next[..|next|] == next;
  }

  method Keep(out: seq<string>, seen: set<string>, raw: string, before: set<string>, after: set<string>)
    returns (out': seq<string>, seen': set<string>)
    requires seen == OutKeys(out)
    ensures out' == KeepOne(out, raw, before, after)
    ensures seen' == OutKeys(out')
  {
    var name := NormalizeTagName(raw);
    var key := Lower(name);
    if name == "" || key in seen || (key in before && key !in after) {
      return out, seen;
    }
    OutKeysAppend(out, name);
    out', seen' := out + [name], seen + {key};
  }

  lemma KeysOfAppend(names: seq<string>, name: string)
    ensures KeysOf(names + [name]) == KeysOf(names) + {TagKey(name)}
  {
    var all := names + [name];
    assert forall k :: k in KeysOf(names) ==> exists i :: 0 <= i < |names| && TagKey(names[i]) == k && all[i] == names[i];
    assert TagKey(all[|names|]) in KeysOf(all);
    forall k | k in KeysOf(names) ensures k in KeysOf(all) {
      var i :| 0 <= i < |names| && TagKey(names[i]) == k;
      assert all[i] == names[i];
    }
  }

  lemma OutKeysAppend(out: seq<string>, name: string)
    ensures OutKeys(out + [name]) == OutKeys(out) + {Lower(name)}
  {
    var all := out + [name];
    assert Lower(all[|out|]) in OutKeys(all);
    forall k | k in OutKeys(out) ensures k in OutKeys(all) {
      var i :| 0 <= i < |out| && Lower(out[i]) == k;
      assert all[i] == out[i];
    }
  }

  // ---- The laws of the merge ----------------------------------------------------------------

  predicate Distinct(out: seq<string>) {
    forall i, j :: 0 <= i < j < |out| ==> Lower(out[i]) != Lower(out[j])
  }

  /** The keys a walk adds: those of the walked names that are not blank and not taken off. */
  function NewKeys(names: seq<string>, before: set<string>, after: set<string>): set<string> {
    set k | k in KeysOf(names) && k != "" && !(k in before && k !in after)
  }

  lemma KeepOneKeys(out: seq<string>, raw: string, before: set<string>, after: set<string>)
    requires Distinct(out)
    ensures var r, key := KeepOne(out, raw, before, after), TagKey(raw);
      && OutKeys(r) == OutKeys(out) + (if key != "" && !(key in before && key !in after) then {key} else {})
      && Distinct(r) && out <= r
  {
    OutKeysAppend(out, NormalizeTagName(raw));
    assert forall i :: 0 <= i < |out| ==> Lower(out[i]) in OutKeys(out);
  }

  lemma {:induction false} KeepAllKeys(out: seq<string>, names: seq<string>, before: set<string>, after: set<string>)
    requires Distinct(out)
    ensures OutKeys(KeepAll(out, names, before, after)) == OutKeys(out) + NewKeys(names, before, after)
    ensures Distinct(KeepAll(out, names, before, after))
    ensures out <= KeepAll(out, names, before, after)
  {
    if names != [] {
      var init, raw := names[..|names| - 1], names[|names| - 1];
      KeepAllKeys(out, init, before, after);
      KeepOneKeys(KeepAll(out, init, before, after), raw, before, after);
      KeysOfAppend(init, raw);
      assert init + [raw] == names;
    }
  }

  lemma {:induction false} AdditionsKeys(next: seq<string>, before: set<string>)
    ensures KeysOf(Additions(next, before)) == KeysOf(next) - before
  {
    if next != [] {
      var init, raw := next[..|next| - 1], next[|next| - 1];
      AdditionsKeys(init, before);
      KeysOfAppend(init, raw);
      KeysOfAppend(Additions(init, before), raw);
      assert init + [raw] == next;
    }
  }

  /** The keys a change from `base` to `next` takes off, puts on, and changes at all. */
  function Removed(base: seq<string>, next: seq<string>): set<string> { KeysOf(base) - KeysOf(next) }

  function Added(base: seq<string>, next: seq<string>): set<string> { KeysOf(next) - KeysOf(base) }

  function Touched(base: seq<string>, next: seq<string>): set<string> { Removed(base, next) + Added(base, next) }

  /**
    * The merge's result, key by key: the current keys without the removed ones, plus the added ones;
    * no key twice; the current names come first.
    */
  lemma MergeKeys(current: seq<string>, base: seq<string>, next: seq<string>)
    ensures OutKeys(Merged(current, base, next)) == KeysOf(current) - Removed(base, next) + Added(base, next) - {""}
    ensures Distinct(Merged(current, base, next))
    ensures KeepAll([], current, KeysOf(base), KeysOf(next)) <= Merged(current, base, next)
  {
    var before, after := KeysOf(base), KeysOf(next);
    KeepAllKeys([], current, before, after);
    AdditionsKeys(next, before);
    KeepAllKeys(KeepAll([], current, before, after), Additions(next, before), before, after);
  }

  /** Where a key first stands in a list of names (the list's length when nowhere). */
  function FirstAt(names: seq<string>, key: string): (n: nat)
    ensures n <= |names|
    ensures n < |names| ==> TagKey(names[n]) == key
    ensures forall i :: 0 <= i < n ==> TagKey(names[i]) != key
  {
    if names == [] then 0
    else
      var n := FirstAt(names[..|names| - 1], key);
      if n < |names| - 1 || TagKey(names[|names| - 1]) == key then n else |names|
  }

  lemma FirstAtFinds(names: seq<string>, key: string)
    ensures FirstAt(names, key) < |names| <==> key in KeysOf(names)
  {
    var n := FirstAt(names, key);
    if n < |names| {
      assert TagKey(names[n]) in KeysOf(names);
    }
  }

  /** A name kept by a walk over `names`, in the spelling it first has there. */
  predicate KeptFrom(names: seq<string>, name: string) {
    FirstAt(names, Lower(name)) < |names| && name == NormalizeTagName(names[FirstAt(names, Lower(name))])
  }

  lemma KeptFromLonger(names: seq<string>, raw: string, name: string)
    requires KeptFrom(names, name)
    ensures KeptFrom(names + [raw], name)
    ensures FirstAt(names + [raw], Lower(name)) == FirstAt(names, Lower(name))
  {
    assert (names + [raw])[..|names|] == names;
  }

  /** Walked names keep the order and the spelling of their first occurrence. */
  lemma {:induction false} KeepAllOrder(out: seq<string>, names: seq<string>, before: set<string>, after: set<string>)
    requires Distinct(out)
    ensures out <= KeepAll(out, names, before, after)
    ensures forall i :: |out| <= i < |KeepAll(out, names, before, after)| ==>
      Lower(KeepAll(out, names, before, after)[i]) !in OutKeys(out) && KeptFrom(names, KeepAll(out, names, before, after)[i])
    ensures forall i, j :: |out| <= i < j < |KeepAll(out, names, before, after)| ==>
      FirstAt(names, Lower(KeepAll(out, names, before, after)[i])) < FirstAt(names, Lower(KeepAll(out, names, before, after)[j]))
  {
    if names != [] {
      var init, raw := names[..|names| - 1], names[|names| - 1];
      assert names == init + [raw];
      KeepAllOrder(out, init, before, after);
      KeepAllKeys(out, init, before, after);
      var kept := KeepAll(out, init, before, after);
      var name := NormalizeTagName(raw);
      forall i | |out| <= i < |kept|
        ensures KeptFrom(names, kept[i]) && FirstAt(names, Lower(kept[i])) == FirstAt(init, Lower(kept[i])) < |init|
      {
        KeptFromLonger(init, raw, kept[i]);
      }
      if KeepOne(kept, raw, before, after) != kept {
        FirstAtFinds(init, Lower(name));
        assert FirstAt(names, Lower(name)) == |init|;
        assert Lower(name) !in OutKeys(out);
      }
    }
  }

  /**
    * The merge's order: the task's own tags first, each in the order and spelling it first has there,
    * then the added ones as they first come in `next`.
    */
  lemma MergeOrder(current: seq<string>, base: seq<string>, next: seq<string>)
    ensures var out := Merged(current, base, next);
      && (forall i, j :: 0 <= i < j < |out| && Lower(out[j]) in KeysOf(current) ==>
            Lower(out[i]) in KeysOf(current) && FirstAt(current, Lower(out[i])) < FirstAt(current, Lower(out[j])))
      && (forall i :: 0 <= i < |out| && Lower(out[i]) in KeysOf(current) ==>
            KeptFrom(current, out[i]))
      && (forall i :: 0 <= i < |out| && Lower(out[i]) !in KeysOf(current) ==>
            KeptFrom(Additions(next, KeysOf(base)), out[i]))
      && (forall i, j :: 0 <= i < j < |out| && Lower(out[i]) !in KeysOf(current) ==>
            var added := Additions(next, KeysOf(base));
            Lower(out[j]) !in KeysOf(current) && FirstAt(added, Lower(out[i])) < FirstAt(added, Lower(out[j])))
  {
    var before, after := KeysOf(base), KeysOf(next);
    var added := Additions(next, before);
    var own := KeepAll([], current, before, after);
    KeepAllOrder([], current, before, after);
    KeepAllKeys([], current, before, after);
    KeepAllOrder(own, added, before, after);
    AdditionsKeys(next, before);
    var out := Merged(current, base, next);
    forall i | 0 <= i < |out| ensures Lower(out[i]) in KeysOf(current) <==> i < |own| {
      if i < |own| {
        assert out[i] == own[i];
        assert Lower(own[i]) in OutKeys(own);
      } else {
        var k := Lower(out[i]);
        assert TagKey(added[FirstAt(added, k)]) in KeysOf(added);
        assert NormalizeTagName(added[FirstAt(added, k)]) == out[i];
        assert k !in OutKeys(own);
        KeepAllKeys(own, added, before, after);
        NotBlank(own, added, before, after, i);
      }
    }
  }

  /** No blank name is ever kept. */
  lemma {:induction false} NotBlank(out: seq<string>, names: seq<string>, before: set<string>, after: set<string>, i: nat)
    requires |out| <= i < |KeepAll(out, names, before, after)|
    ensures KeepAll(out, names, before, after)[i] != ""
  {
    if names != [] {
      if i < |KeepAll(out, names[..|names| - 1], before, after)| {
        NotBlank(out, names[..|names| - 1], before, after, i);
      }
    }
  }

  // ---- Tidying, and what it costs the merge -------------------------------------------------

  /** A name that tidying leaves as it is. */
  predicate Tidy(name: string) {
    NormalizeTagName(name) == name
  }

  /** Cut at the cap right after a space: the one way a tidied name isn't tidy. */
  predicate CutAtSpace(name: string) {
    var n := NormalizeTagName(name);
    n != "" && n[|n| - 1] == ' '
  }

  /** White space only as single inner spaces. */
  predicate Single(s: string) {
    && (forall i :: 0 <= i < |s| && IsSpace(s[i]) ==> s[i] == ' ')
    && (forall i :: 0 <= i < |s| - 1 ==> !(IsSpace(s[i]) && IsSpace(s[i + 1])))
  }

  lemma {:induction false} CollapseSingle(s: string)
    ensures Single(Collapse(s))
    ensures s != "" ==> Collapse(s) != "" && (IsSpace(Collapse(s)[0]) <==> IsSpace(s[0]))
    decreases |s|
  {
    if s != "" {
      if !IsSpace(s[0]) {
        CollapseSingle(s[1..]);
      } else {
        DropLeadingShortens(s[1..]);
        CollapseSingle(DropLeading(s[1..]));
      }
    }
  }

  lemma {:induction false} CollapseFixes(s: string)
    requires Single(s)
    ensures Collapse(s) == s
    decreases |s|
  {
    if s != "" {
      var rest := s[1..];
      assert forall i :: 0 <= i < |rest| ==> rest[i] == s[i + 1];
      assert Single(rest);
      CollapseFixes(rest);
      if IsSpace(s[0]) {
        assert DropLeading(rest) == rest;
      }
      assert s == [s[0]] + rest;
    }
  }

  /** A collapsed name changes under tidying only by losing one space at either end. */
  lemma NormalizeSingle(s: string)
    requires Single(s) && |s| <= MAX_TAG_LENGTH
    requires s != "" ==> !IsSpace(s[0])
    ensures NormalizeTagName(s) == if s != "" && s[|s| - 1] == ' ' then s[..|s| - 1] else s
  {
    assert DropLeading(s) == s;
    if s != "" && IsSpace(s[|s| - 1]) {
      var t := s[..|s| - 1];
      assert t != "" ==> !IsSpace(t[|t| - 1]);
      assert DropTrailing(s) == t;
      CollapseFixes(t);
    } else {
      CollapseFixes(s);
    }
  }

  lemma NormalizedIsSingle(raw: string)
    ensures var n := NormalizeTagName(raw); Single(n) && |n| <= MAX_TAG_LENGTH && (n != "" ==> !IsSpace(n[0]))
  {
    var led := DropLeading(raw);
    DropLeadingShortens(raw);
    DropTrailingPrefix(led);
    CollapseSingle(DropTrailing(led));
  }

  lemma {:induction false} DropTrailingPrefix(s: string)
    ensures DropTrailing(s) <= s
  {
    if s != "" && IsSpace(s[|s| - 1]) {
      DropTrailingPrefix(s[..|s| - 1]);
    }
  }

  /** Tidying twice is tidying once, except exactly for a name the cap cuts right after a space. */
  lemma TidyTwice(raw: string)
    ensures Tidy(NormalizeTagName(raw)) <==> !CutAtSpace(raw)
  {
    NormalizedIsSingle(raw);
    NormalizeSingle(NormalizeTagName(raw));
  }

  predicate NoneCut(names: seq<string>) {
    forall i :: 0 <= i < |names| ==> !CutAtSpace(names[i])
  }

  /** Merged names are tidy when none of the merged ones is cut at a space. */
  lemma MergedTidy(current: seq<string>, base: seq<string>, next: seq<string>)
    requires NoneCut(current) && NoneCut(next)
    ensures forall i :: 0 <= i < |Merged(current, base, next)| ==> Tidy(Merged(current, base, next)[i])
    ensures KeysOf(Merged(current, base, next)) == OutKeys(Merged(current, base, next))
  {
    var out := Merged(current, base, next);
    MergeKeys(current, base, next);
    MergeOrder(current, base, next);
    FilterMembers(next, Outside(KeysOf(base)));
    forall i | 0 <= i < |out| ensures Tidy(out[i]) {
      if Lower(out[i]) in KeysOf(current) {
        TidyTwice(current[FirstAt(current, Lower(out[i]))]);
      } else {
        var added := Additions(next, KeysOf(base));
        assert added[FirstAt(added, Lower(out[i]))] in next;
        var j :| 0 <= j < |next| && next[j] == added[FirstAt(added, Lower(out[i]))];
        TidyTwice(next[j]);
      }
    }
  }

  /** Tidy names with keys of their own, none taken off, are all kept as they are. */
  lemma {:induction false} KeepAllSame(names: seq<string>, before: set<string>, after: set<string>)
    requires Distinct(names)
    requires forall i :: 0 <= i < |names| ==> Tidy(names[i]) && names[i] != "" && !(Lower(names[i]) in before && Lower(names[i]) !in after)
    ensures KeepAll([], names, before, after) == names
  {
    if names != [] {
      KeepAllSame(names[..|names| - 1], before, after);
    }
  }

  /** Changes that touch no tag in common commute, key by key. */
  lemma MergesCommute(current: seq<string>, base1: seq<string>, next1: seq<string>, base2: seq<string>, next2: seq<string>)
    requires Touched(base1, next1) !! Touched(base2, next2)
    requires NoneCut(current) && NoneCut(next1) && NoneCut(next2)
    ensures OutKeys(Merged(Merged(current, base1, next1), base2, next2))
         == OutKeys(Merged(Merged(current, base2, next2), base1, next1))
  {
    MergeKeys(current, base1, next1);
    MergeKeys(current, base2, next2);
    MergedTidy(current, base1, next1);
    MergedTidy(current, base2, next2);
    MergeKeys(Merged(current, base1, next1), base2, next2);
    MergeKeys(Merged(current, base2, next2), base1, next1);
  }

  /** The names whose keys a later change did not touch (how `supersede` trims an older change). */
  function Left(names: seq<string>, touched: set<string>): seq<string> {
    Filter(names, Outside(touched))
  }

  lemma LeftTouched(base: seq<string>, next: seq<string>, touched: set<string>)
    ensures Touched(Left(base, touched), Left(next, touched)) == Touched(base, next) - touched
    ensures |Left(base, touched)| == |base| && |Left(next, touched)| == |next| ==> Left(base, touched) == base && Left(next, touched) == next
  {
    AdditionsKeys(base, touched);
    AdditionsKeys(next, touched);
    FilterMembers(base, Outside(touched));
    FilterMembers(next, Outside(touched));
  }

  /** A trimmed change is the identity on the trimmed keys and acts like the original on all others. */
  lemma TrimmedMerge(current: seq<string>, base: seq<string>, next: seq<string>, touched: set<string>, key: string)
    ensures var trimmed := Merged(current, Left(base, touched), Left(next, touched));
      && (key in touched && key != "" ==> (key in OutKeys(trimmed) <==> key in KeysOf(current)))
      && (key !in touched ==> (key in OutKeys(trimmed) <==> key in OutKeys(Merged(current, base, next))))
  {
    AdditionsKeys(base, touched);
    AdditionsKeys(next, touched);
    MergeKeys(current, base, next);
    MergeKeys(current, Left(base, touched), Left(next, touched));
  }
}
