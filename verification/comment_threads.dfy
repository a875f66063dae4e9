/**
  * A task's comments as threads (Extension/src/comment-thread.js). Comments are named by their place in
  * time order, so two comments with one id stay two comments.
  */
module CommentThreads {
  import opened Changes

  /** `time` is None when the date can't be read; `parentId` is None when the comment answers none. */
  datatype Comment = Comment(id: string, parentId: Option<string>, time: Option<int>)

  datatype Reply = Reply(place: nat, replyTo: Option<nat>)
  datatype Thread = Thread(first: nat, replies: seq<Reply>)

  // ---- Time order ---------------------------------------------------------------------------------

  predicate Earlier(a: Option<int>, b: Option<int>) {
    a.Some? && (b.None? || a.value < b.value)
  }

  function Insert(c: Comment, cs: seq<Comment>): seq<Comment> {
    if cs == [] || !Earlier(cs[0].time, c.time) then [c] + cs else [cs[0]] + Insert(c, cs[1..])
  }

  /** Oldest first; comments of one time, or of none, as they came. */
  function Ordered(cs: seq<Comment>): seq<Comment> {
    if cs == [] then [] else Insert(cs[0], Ordered(cs[1..]))
  }

  function At(cs: seq<Comment>, t: Option<int>): seq<Comment> {
    if cs == [] then [] else (if cs[0].time == t then [cs[0]] else []) + At(cs[1..], t)
  }

  predicate InOrder(cs: seq<Comment>) {
    forall a, b :: 0 <= a < b < |cs| ==> !Earlier(cs[b].time, cs[a].time)
  }

  lemma {:induction false} InsertOrders(c: Comment, cs: seq<Comment>)
    requires InOrder(cs)
    ensures InOrder(Insert(c, cs)) && multiset(Insert(c, cs)) == multiset([c] + cs)
  {
    var r := Insert(c, cs);
    if cs == [] || !Earlier(cs[0].time, c.time) {
      forall b | 0 < b < |r| ensures !Earlier(r[b].time, c.time) {
        if b > 1 { assert !Earlier(cs[b - 1].time, cs[0].time); }
      }
    } else {
      var rest := Insert(c, cs[1..]);
      InsertOrders(c, cs[1..]);
      assert cs == [cs[0]] + cs[1..];
      forall b | 0 <= b < |rest| ensures !Earlier(rest[b].time, cs[0].time) {
        assert rest[b] in multiset(rest);
        assert rest[b] in [c] + cs[1..];
      }
    }
  }

  lemma {:induction false} InsertKeeps(c: Comment, cs: seq<Comment>, t: Option<int>)
    ensures At(Insert(c, cs), t) == (if c.time == t then [c] else []) + At(cs, t)
  {
    if cs == [] || !Earlier(cs[0].time, c.time) {
      assert ([c] + cs)[1..] == cs;
    } else {
      InsertKeeps(c, cs[1..], t);
      assert Insert(c, cs)[1..] == Insert(c, cs[1..]);
    }
  }

  /** The order is by time, keeps every comment, and keeps the order of those of one time. */
  lemma {:induction false} OrderedIs(cs: seq<Comment>)
    ensures InOrder(Ordered(cs)) && multiset(Ordered(cs)) == multiset(cs)
    ensures forall t :: At(Ordered(cs), t) == At(cs, t)
  {
    if cs != [] {
      OrderedIs(cs[1..]);
      InsertOrders(cs[0], Ordered(cs[1..]));
      assert cs == [cs[0]] + cs[1..];
      forall t ensures At(Ordered(cs), t) == At(cs, t) {
        InsertKeeps(cs[0], Ordered(cs[1..]), t);
      }
    }
  }

  // ---- Parents ------------------------------------------------------------------------------------

  /** The last comment with this id. */
  function LastWith(cs: seq<Comment>, id: string): (place: Option<nat>)
    ensures place.Some? ==> place.value < |cs| && cs[place.value].id == id
    ensures place.None? ==> forall n :: 0 <= n < |cs| ==> cs[n].id != id
    ensures place.Some? ==> forall n :: place.value < n < |cs| ==> cs[n].id != id
  {
    if cs == [] then None
    else if cs[|cs| - 1].id == id then Some(|cs| - 1)
    else LastWith(cs[..|cs| - 1], id)
  }

  function ParentOf(cs: seq<Comment>, i: nat): Option<nat>
    requires i < |cs|
  {
    if cs[i].parentId.None? then None else LastWith(cs, cs[i].parentId.value)
  }

  /** One step up; a comment without a parent stays where it is. */
  function Step(cs: seq<Comment>, i: nat): (j: nat)
    requires i < |cs|
    ensures j < |cs|
  {
    if ParentOf(cs, i).Some? then ParentOf(cs, i).value else i
  }

  function Up(cs: seq<Comment>, i: nat, k: nat): (j: nat)
    requires i < |cs|
    ensures j < |cs|
    decreases k
  {
    if k == 0 then i else Up(cs, Step(cs, i), k - 1)
  }

  ghost predicate Reaches(cs: seq<Comment>, i: nat, j: nat) {
    i < |cs| && exists k: nat :: Up(cs, i, k) == j
  }

  /** The comment `r` starts the thread of `i`: going up from `i` reaches it, and it is the earliest of the circle it closes. */
  ghost predicate IsRootOf(cs: seq<Comment>, i: nat, r: nat) {
    Reaches(cs, i, r) && forall j :: Reaches(cs, r, j) ==> r <= j && Reaches(cs, j, r)
  }

  lemma {:induction false} UpUp(cs: seq<Comment>, i: nat, a: nat, b: nat)
    requires i < |cs|
    ensures Up(cs, i, a + b) == Up(cs, Up(cs, i, a), b)
    decreases a
  {
    if a > 0 { UpUp(cs, Step(cs, i), a - 1, b); }
  }

  lemma ReachesOn(cs: seq<Comment>, i: nat, j: nat, l: nat)
    requires Reaches(cs, i, j) && Reaches(cs, j, l)
    ensures Reaches(cs, i, l)
  {
    var a: nat :| Up(cs, i, a) == j;
    var b: nat :| Up(cs, j, b) == l;
    UpUp(cs, i, a, b);
  }

  lemma ReachesStep(cs: seq<Comment>, i: nat)
    requires i < |cs|
    ensures Reaches(cs, i, i) && Reaches(cs, i, Step(cs, i))
  {
    assert Up(cs, i, 0) == i;
    assert Up(cs, i, 1) == Up(cs, Step(cs, i), 0);
  }

  /** Of two comments above one comment, one is above the other. */
  lemma OneLine(cs: seq<Comment>, i: nat, r: nat, s: nat)
    requires Reaches(cs, i, r) && Reaches(cs, i, s)
    ensures Reaches(cs, r, s) || Reaches(cs, s, r)
  {
    var a: nat :| Up(cs, i, a) == r;
    var b: nat :| Up(cs, i, b) == s;
    if a <= b { UpUp(cs, i, a, b - a); } else { UpUp(cs, i, b, a - b); }
  }

  /** A comment has one thread. */
  lemma OneRoot(cs: seq<Comment>, i: nat, r: nat, s: nat)
    requires IsRootOf(cs, i, r) && IsRootOf(cs, i, s)
    ensures r == s
  {
    OneLine(cs, i, r, s);
  }

  /** A whole connected group is one thread, and a thread's first comment is its own. */
  lemma SameThread(cs: seq<Comment>, i: nat, j: nat, r: nat, s: nat)
    requires IsRootOf(cs, i, r) && IsRootOf(cs, j, s)
    requires exists l :: Reaches(cs, i, l) && Reaches(cs, j, l)
    ensures r == s && IsRootOf(cs, r, r)
  {
    var l :| Reaches(cs, i, l) && Reaches(cs, j, l);
    RootFrom(cs, i, l, r);
    RootFrom(cs, j, l, s);
    OneRoot(cs, l, r, s);
    ReachesStep(cs, r);
  }

  lemma RootFrom(cs: seq<Comment>, i: nat, l: nat, r: nat)
    requires IsRootOf(cs, i, r) && Reaches(cs, i, l)
    ensures IsRootOf(cs, l, r)
  {
    OneLine(cs, i, r, l);
  }

  /** Every circle gives exactly one root: its earliest comment; so does every comment without a parent. */
  lemma CircleRoot(cs: seq<Comment>, c: nat, r: nat)
    requires IsRootOf(cs, c, r) && Reaches(cs, Step(cs, c), c)
    ensures Reaches(cs, r, c) && r <= c
    ensures forall d :: Reaches(cs, c, d) ==> r <= d && (IsRootOf(cs, d, d) <==> d == r)
  {
    CircleBack(cs, c, r);
    forall d | Reaches(cs, c, d) ensures r <= d && (IsRootOf(cs, d, d) <==> d == r) {
      ReachesOn(cs, r, c, d);
      ReachesStep(cs, r);
      RootFrom(cs, c, d, r);
      if IsRootOf(cs, d, d) { OneRoot(cs, d, d, r); }
    }
  }

  lemma CircleBack(cs: seq<Comment>, c: nat, r: nat)
    requires Reaches(cs, c, r) && Reaches(cs, Step(cs, c), c)
    ensures Reaches(cs, r, c)
  {
    var k: nat :| Up(cs, c, k) == r;
    UpOnCircle(cs, c, k);
  }

  lemma {:induction false} UpOnCircle(cs: seq<Comment>, c: nat, k: nat)
    requires c < |cs| && Reaches(cs, Step(cs, c), c)
    ensures Reaches(cs, Up(cs, c, k), c)
  {
    ReachesStep(cs, c);
    if k > 0 {
      UpOnCircle(cs, c, k - 1);
      UpUp(cs, c, k - 1, 1);
      var at := Up(cs, c, k - 1);
      assert Up(cs, at, 1) == Up(cs, Step(cs, at), 0);
      var m: nat :| Up(cs, at, m) == c;
      if m == 0 { } else { assert Up(cs, Step(cs, at), m - 1) == c; }
    }
  }

  // ---- Walking up ---------------------------------------------------------------------------------

  predicate IsChain(cs: seq<Comment>, chain: seq<nat>) {
    && chain != [] && (forall n :: 0 <= n < |chain| ==> chain[n] < |cs|)
    && (forall n :: 0 < n < |chain| ==> chain[n] == Step(cs, chain[n - 1]))
  }

  predicate Distinct(s: seq<nat>) {
    forall a, b :: 0 <= a < b < |s| ==> s[a] != s[b]
  }

  lemma {:induction false} ChainReaches(cs: seq<Comment>, chain: seq<nat>, a: nat, b: nat)
    requires IsChain(cs, chain) && a <= b < |chain|
    ensures Reaches(cs, chain[a], chain[b])
    decreases b - a
  {
    ReachesStep(cs, chain[a]);
    if a < b {
      ChainReaches(cs, chain, a + 1, b);
      ReachesOn(cs, chain[a], chain[a + 1], chain[b]);
    }
  }

  lemma {:induction false} StaysIn(cs: seq<Comment>, members: seq<nat>, i: nat, k: nat)
    requires i in members && forall m :: m in members ==> m < |cs| && Step(cs, m) in members
    ensures Up(cs, i, k) in members
    decreases k
  {
    if k > 0 { StaysIn(cs, members, Step(cs, i), k - 1); }
  }

  predicate Closes(cs: seq<Comment>, chain: seq<nat>, p: nat) {
    IsChain(cs, chain) && p < |chain| && Step(cs, chain[|chain| - 1]) == chain[p]
  }

  lemma AroundCircle(cs: seq<Comment>, chain: seq<nat>, p: nat, n: nat, at: nat)
    requires Closes(cs, chain, p) && p <= n < |chain| && p <= at < |chain|
    ensures Step(cs, chain[n]) in chain[p..] && Reaches(cs, chain[n], chain[at])
  {
    if n < |chain| - 1 { assert chain[n + 1] == chain[p..][n + 1 - p]; } else { assert chain[p..][0] == chain[p]; }
    ChainReaches(cs, chain, n, |chain| - 1);
    ReachesStep(cs, chain[|chain| - 1]);
    ReachesOn(cs, chain[n], chain[|chain| - 1], chain[p]);
    ChainReaches(cs, chain, p, at);
    ReachesOn(cs, chain[n], chain[p], chain[at]);
  }

  /** A chain that closes at `p`: everything above one of its circle's comments is in the circle, and leads back. */
  lemma CircleCloses(cs: seq<Comment>, chain: seq<nat>, p: nat, r: nat)
    requires Closes(cs, chain, p)
    requires r in chain[p..] && forall m :: m in chain[p..] ==> r <= m
    ensures IsRootOf(cs, chain[0], r)
  {
    var at :| p <= at < |chain| && chain[at] == r;
    ChainReaches(cs, chain, 0, at);
    forall m | m in chain[p..] ensures m < |cs| && Step(cs, m) in chain[p..] && Reaches(cs, m, r) {
      var n :| p <= n < |chain| && chain[n] == m;
      AroundCircle(cs, chain, p, n, at);
    }
    forall j | Reaches(cs, r, j) ensures r <= j && Reaches(cs, j, r) {
      var k: nat :| Up(cs, r, k) == j;
      StaysIn(cs, chain[p..], r, k);
    }
  }

  lemma {:induction false} ShortChain(s: seq<nat>, n: nat)
    requires Distinct(s) && forall a :: 0 <= a < |s| ==> s[a] < n
    ensures |s| <= n
  {
    if s == [] { return; }
    assert 0 <= s[0] < n;
    if n - 1 in s {
      var a :| 0 <= a < |s| && s[a] == n - 1;
      var rest := s[..a] + s[a + 1..];
      ShortChain(rest, n - 1);
    } else {
      ShortChain(s, n - 1);
    }
  }

  /** The thread a comment belongs to; parents that go round in a circle give its earliest comment. */
  method RootOf(cs: seq<Comment>, i: nat) returns (r: nat)
    requires i < |cs|
    ensures r < |cs| && IsRootOf(cs, i, r)
  {
    var chain, at := [i], i;
    while ParentOf(cs, at).Some?
      invariant IsChain(cs, chain) && Distinct(chain) && chain[0] == i && at == chain[|chain| - 1]
      decreases |cs| - |chain|
    {
      var parent := ParentOf(cs, at).value;
      if parent in chain {
        var p := 0;
        while chain[p] != parent
          invariant p < |chain| && parent in chain[p..]
          decreases |chain| - p
        {
          p := p + 1;
        }
        r := Earliest(chain[p..]);
        CircleCloses(cs, chain, p, r);
        return;
      }
      chain, at := chain + [parent], parent;
      ShortChain(chain, |cs|);
    }
    r := at;
    assert chain[|chain| - 1..] == [at];
    CircleCloses(cs, chain, |chain| - 1, at);
  }

  method Earliest(circle: seq<nat>) returns (r: nat)
    requires circle != []
    ensures r in circle && forall m :: m in circle ==> r <= m
  {
    r := circle[0];
    for n := 1 to |circle|
      invariant r in circle && forall m :: 0 <= m < n ==> r <= circle[m]
    {
      if circle[n] < r { r := circle[n]; }
    }
  }

  // ---- Threads ------------------------------------------------------------------------------------

  /** A comment reached from another one is the last with its id. */
  lemma {:induction false} ReachedIsLast(cs: seq<Comment>, i: nat, k: nat)
    requires i < |cs|
    ensures var r := Up(cs, i, k); r == i || LastWith(cs, cs[r].id) == Some(r)
    decreases k
  {
    if k > 0 { ReachedIsLast(cs, Step(cs, i), k - 1); }
  }

  lemma RootIsLast(cs: seq<Comment>, i: nat, r: nat)
    requires IsRootOf(cs, i, r) && r != i
    ensures LastWith(cs, cs[r].id) == Some(r) && IsRootOf(cs, r, r)
  {
    var k: nat :| Up(cs, i, k) == r;
    ReachedIsLast(cs, i, k);
    ReachesStep(cs, r);
  }

  /** The comment a reply answers, when that isn't the thread's first. */
  function ReplyTo(cs: seq<Comment>, i: nat, first: nat): Option<nat>
    requires i < |cs|
  {
    if ParentOf(cs, i) == Some(first) then None else ParentOf(cs, i)
  }

  predicate Rising(places: seq<nat>) {
    forall a, b :: 0 <= a < b < |places| ==> places[a] < places[b]
  }

  function Firsts(threads: seq<Thread>): (places: seq<nat>)
    ensures |places| == |threads| && forall n :: 0 <= n < |threads| ==> places[n] == threads[n].first
  {
    seq(|threads|, n requires 0 <= n < |threads| => threads[n].first)
  }

  function Places(replies: seq<Reply>): (places: seq<nat>)
    ensures |places| == |replies| && forall n :: 0 <= n < |replies| ==> places[n] == replies[n].place
  {
    seq(|replies|, n requires 0 <= n < |replies| => replies[n].place)
  }

  /** The threads' first comments, up to a place: the roots, in time order. */
  ghost predicate RootsUpTo(cs: seq<Comment>, roots: seq<nat>, n: nat) {
    Rising(roots) && forall i: nat :: i in roots <==> i < n && i < |cs| && IsRootOf(cs, i, i)
  }

  /** A thread's replies, up to a place: the other comments of its root, in time order, each with the comment it answers. */
  ghost predicate RepliesUpTo(cs: seq<Comment>, t: Thread, n: nat) {
    && Rising(Places(t.replies))
    && (forall i: nat :: i in Places(t.replies) <==> i < n && i < |cs| && i != t.first && IsRootOf(cs, i, t.first))
    && (forall m :: 0 <= m < |t.replies| && t.replies[m].place < |cs| ==> t.replies[m].replyTo == ReplyTo(cs, t.replies[m].place, t.first))
  }

  ghost predicate AreThreads(cs: seq<Comment>, threads: seq<Thread>) {
    RootsUpTo(cs, Firsts(threads), |cs|) && forall n :: 0 <= n < |threads| ==> RepliesUpTo(cs, threads[n], |cs|)
  }

  predicate InThread(t: Thread, i: nat) {
    i == t.first || i in Places(t.replies)
  }

  predicate Shown(threads: seq<Thread>, i: nat) {
    exists n :: 0 <= n < |threads| && InThread(threads[n], i)
  }

  /** Every comment is in one thread, at one place in it, and no thread holds anything else. */
  ghost predicate EachOnce(cs: seq<Comment>, threads: seq<Thread>) {
    && (forall i :: 0 <= i < |cs| ==> Shown(threads, i))
    && (forall n :: 0 <= n < |threads| ==> threads[n].first !in Places(threads[n].replies) && Rising(Places(threads[n].replies)))
    && (forall n, i: nat :: 0 <= n < |threads| && InThread(threads[n], i) ==> i < |cs|)
    && (forall i: nat, m, n :: 0 <= m < n < |threads| && InThread(threads[m], i) ==> !InThread(threads[n], i))
  }

  lemma NothingLost(cs: seq<Comment>, threads: seq<Thread>, roots: seq<nat>)
    requires AreThreads(cs, threads) && |roots| == |cs| && forall i :: 0 <= i < |cs| ==> IsRootOf(cs, i, roots[i])
    ensures EachOnce(cs, threads)
  {
    forall n | 0 <= n < |threads|
      ensures threads[n].first !in Places(threads[n].replies) && Rising(Places(threads[n].replies))
      ensures forall i: nat :: InThread(threads[n], i) ==> i < |cs| && threads[n].first == roots[i]
    {
      assert RepliesUpTo(cs, threads[n], |cs|);
      assert threads[n].first in Firsts(threads);
      forall i: nat | InThread(threads[n], i) ensures i < |cs| && threads[n].first == roots[i] {
        OneRoot(cs, i, threads[n].first, roots[i]);
      }
    }
    forall i | 0 <= i < |cs| ensures Shown(threads, i) {
      ReachesStep(cs, roots[i]);
      assert IsRootOf(cs, i, roots[i]);
      assert roots[i] in Firsts(threads);
      var n :| 0 <= n < |threads| && threads[n].first == roots[i];
      assert RepliesUpTo(cs, threads[n], |cs|);
      assert InThread(threads[n], i);
    }
    forall i: nat, m, n | 0 <= m < n < |threads| && InThread(threads[m], i) ensures !InThread(threads[n], i) {
      assert Firsts(threads)[m] < Firsts(threads)[n];
    }
  }

  lemma RootStep(cs: seq<Comment>, threads: seq<Thread>, i: nat, root: nat)
    requires i < |cs| && RootsUpTo(cs, Firsts(threads), i) && IsRootOf(cs, i, root)
    ensures RootsUpTo(cs, Firsts(if root == i then threads + [Thread(i, [])] else threads), i + 1)
  {
    var was := Firsts(threads);
    forall n | 0 <= n < |was| ensures was[n] < i { assert was[n] in was; }
    if root == i {
      assert Firsts(threads + [Thread(i, [])]) == was + [i];
    } else if IsRootOf(cs, i, i) {
      OneRoot(cs, i, i, root);
    }
  }

  /** The thread with this comment added, when it is a reply there. */
  function WithReply(cs: seq<Comment>, t: Thread, i: nat, root: nat): Thread
    requires i < |cs|
  {
    if root != i && root == t.first then t.(replies := t.replies + [Reply(i, ReplyTo(cs, i, root))]) else t
  }

  lemma ReplyStep(cs: seq<Comment>, t: Thread, i: nat, root: nat)
    requires i < |cs| && RepliesUpTo(cs, t, i) && IsRootOf(cs, i, root)
    ensures RepliesUpTo(cs, WithReply(cs, t, i, root), i + 1)
  {
    var was := Places(t.replies);
    forall n | 0 <= n < |was| ensures was[n] < i { assert was[n] in was; }
    if root != i && root == t.first {
      assert Places(WithReply(cs, t, i, root).replies) == was + [i];
    } else if i != t.first && IsRootOf(cs, i, t.first) {
      OneRoot(cs, i, t.first, root);
    }
  }

  /** Where the last comment with an id has its thread. */
  predicate Indexed(cs: seq<Comment>, threads: seq<Thread>, at: map<string, nat>) {
    forall n :: 0 <= n < |threads| ==>
      var first := threads[n].first;
      first < |cs| && (LastWith(cs, cs[first].id) == Some(first) ==> cs[first].id in at && at[cs[first].id] == n)
  }

  lemma IndexedAt(cs: seq<Comment>, threads: seq<Thread>, at: map<string, nat>, root: nat)
    requires Indexed(cs, threads, at) && RootsUpTo(cs, Firsts(threads), |cs|)
    requires root < |cs| && LastWith(cs, cs[root].id) == Some(root) && IsRootOf(cs, root, root)
    ensures cs[root].id in at && at[cs[root].id] < |threads| && threads[at[cs[root].id]].first == root
  {
    assert root in Firsts(threads);
    var n :| 0 <= n < |threads| && threads[n].first == root;
  }

  lemma OneThread(cs: seq<Comment>, threads: seq<Thread>, m: nat, n: nat)
    requires RootsUpTo(cs, Firsts(threads), |cs|) && m < |threads| && n < |threads| && threads[m].first == threads[n].first
    ensures m == n
  {
    assert Firsts(threads)[m] == Firsts(threads)[n];
  }

  /** Whatever the first loop keeps, with the places below `i` done. */
  ghost predicate Started(cs: seq<Comment>, threads: seq<Thread>, at: map<string, nat>, i: nat) {
    RootsUpTo(cs, Firsts(threads), i) && Indexed(cs, threads, at) && forall n :: 0 <= n < |threads| ==> threads[n].replies == []
  }

  /** And the second. */
  ghost predicate Filled(cs: seq<Comment>, threads: seq<Thread>, at: map<string, nat>, i: nat) {
    RootsUpTo(cs, Firsts(threads), |cs|) && Indexed(cs, threads, at) && forall n :: 0 <= n < |threads| ==> RepliesUpTo(cs, threads[n], i)
  }

  lemma StartStep(cs: seq<Comment>, threads: seq<Thread>, at: map<string, nat>, i: nat, root: nat)
    requires i < |cs| && Started(cs, threads, at, i) && IsRootOf(cs, i, root)
    ensures if root == i then Started(cs, threads + [Thread(i, [])], at[cs[i].id := |threads|], i + 1)
            else Started(cs, threads, at, i + 1)
  {
    RootStep(cs, threads, i, root);
    if root == i {
      NextIndexed(cs, threads, at, i);
    }
  }

  lemma NextIndexed(cs: seq<Comment>, threads: seq<Thread>, at: map<string, nat>, i: nat)
    requires i < |cs| && RootsUpTo(cs, Firsts(threads), i) && Indexed(cs, threads, at)
    ensures Indexed(cs, threads + [Thread(i, [])], at[cs[i].id := |threads|])
  {
    forall n | 0 <= n < |threads| ensures var f := threads[n].first; f < i && (LastWith(cs, cs[f].id) == Some(f) ==> cs[f].id != cs[i].id) {
      assert Firsts(threads)[n] in Firsts(threads);
    }
  }

  lemma FillStep(cs: seq<Comment>, threads: seq<Thread>, at: map<string, nat>, i: nat, root: nat)
    requires i < |cs| && Filled(cs, threads, at, i) && IsRootOf(cs, i, root)
    ensures root == i ==> Filled(cs, threads, at, i + 1)
    ensures root != i ==> root < |cs| && cs[root].id in at && at[cs[root].id] < |threads|
    ensures root != i ==>
      var n := at[cs[root].id];
      Filled(cs, threads[n := WithReply(cs, threads[n], i, root)], at, i + 1) && threads[n].first == root
  {
    forall m | 0 <= m < |threads| ensures RepliesUpTo(cs, WithReply(cs, threads[m], i, root), i + 1) {
      ReplyStep(cs, threads[m], i, root);
    }
    if root != i {
      RootIsLast(cs, i, root);
      IndexedAt(cs, threads, at, root);
      var n := at[cs[root].id];
      var now := threads[n := WithReply(cs, threads[n], i, root)];
      forall m | 0 <= m < |threads| ensures now[m] == WithReply(cs, threads[m], i, root) {
        if threads[m].first == root { OneThread(cs, threads, m, n); }
      }
      assert Firsts(now) == Firsts(threads);
    }
  }

  /** The comments as threads; `ordered` is the comments oldest first. */
  method ThreadComments(comments: seq<Comment>) returns (ordered: seq<Comment>, threads: seq<Thread>)
    ensures ordered == Ordered(comments) && AreThreads(ordered, threads) && EachOnce(ordered, threads)
  {
    ordered := Ordered(comments);
    threads := [];
    ghost var roots := [];
    var at: map<string, nat> := map[];
    for i := 0 to |ordered|
      invariant Started(ordered, threads, at, i)
      invariant |roots| == i && forall j :: 0 <= j < i ==> IsRootOf(ordered, j, roots[j])
    {
      var root := RootOf(ordered, i);
      roots := roots + [root];
      StartStep(ordered, threads, at, i, root);
      if root == i {
        threads, at := threads + [Thread(i, [])], at[ordered[i].id := |threads|];
      }
    }
    for i := 0 to |ordered|
      invariant Filled(ordered, threads, at, i)
    {
      var root := RootOf(ordered, i);
      FillStep(ordered, threads, at, i, root);
      if root != i {
        var n := at[ordered[root].id];
        threads := threads[n := WithReply(ordered, threads[n], i, root)];
      }
    }
    NothingLost(ordered, threads, roots);
  }
}
