/** What each write does to the stored queue of changes (Extension/src/queue.js). */
module QueueWrites {
  import opened Lists
  import opened Edits
  import opened Changes

  type Queue = seq<Item>

  const MAX_ATTEMPTS := 5

  datatype Outcome = Pause | Retry | Fail

  /** How a failed replay is treated, by the answer's status (`IDEMPOTENCY_IN_PROGRESS` as `inProgress`). */
  function OutcomeForStatus(status: int, inProgress: bool): Outcome {
    if status == 401 || status == 429 then Pause
    else if status == 409 && inProgress then Pause
    else if status == 408 || status >= 500 then Retry
    else Fail
  }

  function NewItem(id: string, change: Change, user: string, key: string): Item {
    Item(id, change, user, key, 0, Pending, None, false, None)
  }

  /** The key a change was made with: the one thing all its tries have in common. */
  function Origin(item: Item): string {
    match item.firstKey
    case Some(first) => first
    case None => item.idempotencyKey
  }

  predicate IsWaiting(user: string, item: Item) {
    item.userId == user && item.status == Pending
  }

  predicate WaitsFor(user: string, change: Change, item: Item) {
    IsWaiting(user, item) && MustFollow(change, item.change)
  }

  /** This person's queued changes, not failed, that `change` must follow. */
  function WaitingWrites(q: Queue, user: string, change: Change): Queue {
    Filter(q, (i: Item) => WaitsFor(user, change, i))
  }

  function ExpectedVersion(c: Change): Option<int> {
    if c.TaskUpdate? then c.expectedVersion else None
  }

  function Newest(a: Option<int>, b: Option<int>): Option<int> {
    match (a, b)
    case (Some(x), Some(y)) => if x < y then b else a
    case (Some(_), None) => a
    case (None, _) => b
  }

  /** The newest version some of the changes expect. */
  function NewestExpected(q: Queue): Option<int> {
    if q == [] then None else Newest(NewestExpected(q[..|q| - 1]), ExpectedVersion(q[|q| - 1].change))
  }

  /** A change queued behind others: an edit continues from the newest version they expect. */
  function Behind(waiting: Queue, change: Change): Change {
    if change.TaskUpdate? && NewestExpected(waiting).Some?
    then change.(expectedVersion := Newest(NewestExpected(waiting), change.expectedVersion))
    else change
  }

  /** Where an item stands in the queue (its length when nowhere). */
  function IndexOf(q: Queue, id: string): (at: nat)
    ensures at <= |q|
    ensures at < |q| ==> q[at].id == id
    ensures forall n :: 0 <= n < at ==> q[n].id != id
  {
    if q == [] then 0 else if q[0].id == id then 0 else 1 + IndexOf(q[1..], id)
  }

  /** Mark or trim what `done` replaced: the items before it, or all when it was never queued (`None`) or is gone. */
  function SupersedeOlder(q: Queue, id: Option<string>, user: string, done: Change): (r: Queue)
    ensures |r| == |q|
  {
    var at := if id.Some? then IndexOf(q, id.value) else |q|;
    seq(|q|, n requires 0 <= n < |q| => if at == |q| || n < at then Supersede(user, done, q[n]) else q[n])
  }

  function OtherThan(id: string): Item -> bool {
    (i: Item) => i.id != id
  }

  function Without(q: Queue, id: string): Queue {
    Filter(q, OtherThan(id))
  }

  function Rebased(q: Queue, user: string, done: Change, made: Option<int>): Queue {
    Mapped(q, (i: Item) => if i.userId == user then RebaseQueuedVersion(done, made, i) else i)
  }

  /** One write for a replayed change: supersede, remove, rebase. */
  function AfterSuccess(q: Queue, item: Item, made: Option<int>): Queue {
    Rebased(Without(SupersedeOlder(q, Some(item.id), item.userId, item.change), item.id), item.userId, item.change, made)
  }

  function FailedTry(item: Item, status: Option<int>, final: bool, maxAttempts: nat): Item {
    var attempts := item.attempts + 1;
    item.(attempts := attempts, lastStatus := status,
          status := if final || attempts >= maxAttempts then Failed else Pending)
  }

  function AfterFailure(q: Queue, id: string, status: Option<int>, final: bool, maxAttempts: nat): Queue {
    Mapped(q, (i: Item) => if i.id == id then FailedTry(i, status, final, maxAttempts) else i)
  }

  /** A 4xx answer was recorded: the server keeps it under this key. */
  predicate WasRefused(item: Item) {
    item.lastStatus.Some? && 400 <= item.lastStatus.value < 500
  }

  function Retried(item: Item, freshKey: string): Item {
    if item.superseded then item
    else
      var again := item.(status := Pending, attempts := 0, lastStatus := None);
      if WasRefused(item) then again.(idempotencyKey := freshKey, firstKey := Some(Origin(item))) else again
  }

  function AfterRetry(q: Queue, id: string, freshKey: string): Queue {
    Mapped(q, (i: Item) => if i.id == id then Retried(i, freshKey) else i)
  }

  /** The next item a flush sends: the first one of this person still waiting that it hasn't tried. */
  predicate CanPick(user: string, tried: set<string>, item: Item) {
    IsWaiting(user, item) && item.id !in tried
  }

  function NextPick(q: Queue, user: string, tried: set<string>): (at: nat)
    ensures at <= |q|
    ensures at < |q| ==> CanPick(user, tried, q[at])
    ensures forall n :: 0 <= n < at ==> !CanPick(user, tried, q[n])
  {
    if q == [] then 0 else if CanPick(user, tried, q[0]) then 0 else 1 + NextPick(q[1..], user, tried)
  }

  // ---- Items and their order through each write -----------------------------------------------

  ghost predicate UniqueIds(q: Queue) {
    forall i, j :: 0 <= i < j < |q| ==> q[i].id != q[j].id
  }

  predicate Holds(q: Queue, id: string) {
    IndexOf(q, id) < |q|
  }

  /** Item `a` stands before item `b`. */
  predicate Before(q: Queue, a: string, b: string) {
    IndexOf(q, a) < IndexOf(q, b) < |q|
  }

  /** Two queues with the same ids in the same places. */
  ghost predicate SameIds(q: Queue, r: Queue) {
    |q| == |r| && forall i :: 0 <= i < |q| ==> q[i].id == r[i].id
  }

  lemma {:induction false} SameIdsIndex(q: Queue, r: Queue, id: string)
    requires SameIds(q, r)
    ensures IndexOf(q, id) == IndexOf(r, id)
  {
    if q != [] {
      assert forall i :: 0 <= i < |q[1..]| ==> q[1..][i].id == q[i + 1].id && r[1..][i].id == r[i + 1].id;
      SameIdsIndex(q[1..], r[1..], id);
    }
  }

  lemma IndexAt(q: Queue, n: nat)
    requires UniqueIds(q) && n < |q|
    ensures IndexOf(q, q[n].id) == n
  {
  }

  lemma {:induction false} IndexAppend(q: Queue, item: Item, id: string)
    ensures IndexOf(q + [item], id) == if Holds(q, id) then IndexOf(q, id) else if item.id == id then |q| else |q| + 1
  {
    if q != [] {
      assert (q + [item])[1..] == q[1..] + [item];
      IndexAppend(q[1..], item, id);
    }
  }

  lemma MemberHolds(q: Queue, item: Item)
    requires item in q
    ensures Holds(q, item.id)
    ensures UniqueIds(q) ==> q[IndexOf(q, item.id)] == item
  {
    var n :| 0 <= n < |q| && q[n] == item;
    if UniqueIds(q) { IndexAt(q, n); }
  }

  lemma HoldsMember(q: Queue, id: string)
    ensures Holds(q, id) ==> q[IndexOf(q, id)] in q && q[IndexOf(q, id)].id == id
  {
  }

  lemma UniqueAppend(q: Queue, item: Item)
    requires UniqueIds(q) && !Holds(q, item.id)
    ensures UniqueIds(q + [item])
  {
  }

  lemma {:induction false} WithoutIndex(q: Queue, id: string, a: string, b: string)
    requires a != id && b != id
    ensures Holds(Without(q, id), a) <==> Holds(q, a)
    ensures Holds(Without(q, id), b) <==> Holds(q, b)
    ensures Before(Without(q, id), a, b) <==> Before(q, a, b)
  {
    if q != [] {
      var init, last := q[..|q| - 1], q[|q| - 1];
      assert q == init + [last];
      WithoutIndex(init, id, a, b);
      IndexAppend(init, last, a);
      IndexAppend(init, last, b);
      if last.id != id {
        IndexAppend(Without(init, id), last, a);
        IndexAppend(Without(init, id), last, b);
      }
    }
  }

  lemma {:induction false} WithoutUnique(q: Queue, id: string)
    requires UniqueIds(q)
    ensures UniqueIds(Without(q, id))
    ensures !Holds(Without(q, id), id)
  {
    FilterMembers(q, OtherThan(id));
    if q != [] {
      var init, last := q[..|q| - 1], q[|q| - 1];
      WithoutUnique(init, id);
      if last.id != id {
        WithoutIndex(init, id, last.id, last.id);
        UniqueAppend(Without(init, id), last);
      }
    }
  }

  /** What one success write makes of an item that stays: marked or trimmed, then rebased. */
  function Marked(q: Queue, item: Item, x: Item): Item {
    var at := IndexOf(q, item.id);
    if at == |q| || IndexOf(q, x.id) < at then Supersede(item.userId, item.change, x) else x
  }

  function Settled(q: Queue, item: Item, made: Option<int>, x: Item): Item {
    var y := Marked(q, item, x);
    if y.userId == item.userId then RebaseQueuedVersion(item.change, made, y) else y
  }

  function Settling(q: Queue, item: Item, made: Option<int>): Item -> Item {
    (x: Item) => Settled(q, item, made, x)
  }

  lemma SettledShape(q: Queue, item: Item, made: Option<int>, x: Item)
    ensures SameChange(Settled(q, item, made, x), x)
    ensures x.userId != item.userId ==> Settled(q, item, made, x) == x
  {
    SupersedeShape(item.userId, item.change, x);
    RebaseShape(item.change, made, Marked(q, item, x));
  }

  /** The success write, without the order of its three steps: each item settled in its place, the done one gone. */
  lemma AfterSuccessIs(q: Queue, item: Item, made: Option<int>)
    requires UniqueIds(q)
    ensures AfterSuccess(q, item, made) == Without(Mapped(q, Settling(q, item, made)), item.id)
  {
    var marked := SupersedeOlder(q, Some(item.id), item.userId, item.change);
    forall n | 0 <= n < |q| ensures marked[n] == Marked(q, item, q[n]) {
      IndexAt(q, n);
    }
    WithoutRebased(marked, item.id, item.userId, item.change, made);
    assert Rebased(marked, item.userId, item.change, made) == Mapped(q, Settling(q, item, made));
  }

  lemma {:induction false} WithoutRebased(q: Queue, id: string, user: string, done: Change, made: Option<int>)
    ensures Rebased(Without(q, id), user, done, made) == Without(Rebased(q, user, done, made), id)
  {
    if q != [] {
      var init, last := q[..|q| - 1], q[|q| - 1];
      WithoutRebased(init, id, user, done, made);
      assert Rebased(q, user, done, made)[..|q| - 1] == Rebased(init, user, done, made);
      RebaseShape(done, made, last);
    }
  }

  lemma SettledIds(q: Queue, item: Item, made: Option<int>)
    ensures SameIds(Mapped(q, Settling(q, item, made)), q)
  {
    forall n | 0 <= n < |q| ensures Settled(q, item, made, q[n]).id == q[n].id {
      SettledShape(q, item, made, q[n]);
    }
  }

  lemma {:induction false} MappedWithout(q: Queue, f: Item -> Item, id: string)
    requires UniqueIds(q) && SameIds(Mapped(q, f), q)
    ensures UniqueIds(Without(Mapped(q, f), id)) && !Holds(Without(Mapped(q, f), id), id)
    ensures forall y :: y in Without(Mapped(q, f), id) ==> exists x :: x in q && x.id != id && y == f(x)
    ensures forall x :: x in q && x.id != id ==> f(x) in Without(Mapped(q, f), id)
  {
    var all := Mapped(q, f);
    WithoutUnique(all, id);
    FilterMembers(all, OtherThan(id));
    forall y | y in Without(all, id) ensures exists x :: x in q && x.id != id && y == f(x) {
      var n :| 0 <= n < |all| && all[n] == y;
      assert q[n] in q && q[n].id != id;
    }
    forall x | x in q && x.id != id ensures f(x) in Without(all, id) {
      var n :| 0 <= n < |q| && q[n] == x;
      assert all[n] in all && all[n].id == q[n].id;
    }
  }

  /** The success write, item by item: who stays, and as what. */
  lemma AfterSuccessItems(q: Queue, item: Item, made: Option<int>)
    requires UniqueIds(q)
    ensures UniqueIds(AfterSuccess(q, item, made)) && !Holds(AfterSuccess(q, item, made), item.id)
    ensures forall y :: y in AfterSuccess(q, item, made) ==> exists x :: x in q && x.id != item.id && y == Settling(q, item, made)(x)
    ensures forall x :: x in q && x.id != item.id ==> Settling(q, item, made)(x) in AfterSuccess(q, item, made)
  {
    AfterSuccessIs(q, item, made);
    SettledIds(q, item, made);
    MappedWithout(q, Settling(q, item, made), item.id);
  }

  /** The success write keeps the order of the items that stay. */
  lemma AfterSuccessOrder(q: Queue, item: Item, made: Option<int>, a: string, b: string)
    requires UniqueIds(q) && a != item.id && b != item.id
    ensures Holds(AfterSuccess(q, item, made), a) <==> Holds(q, a)
    ensures Before(AfterSuccess(q, item, made), a, b) <==> Before(q, a, b)
  {
    AfterSuccessIs(q, item, made);
    SettledIds(q, item, made);
    var all := Mapped(q, Settling(q, item, made));
    SameIdsIndex(all, q, a);
    SameIdsIndex(all, q, b);
    WithoutIndex(all, item.id, a, b);
  }

  // ---- Other people's items -------------------------------------------------------------------------

  function NotOf(user: string): Item -> bool {
    (i: Item) => i.userId != user
  }

  /** A success write leaves every other person's items as they are, and in their order. */
  lemma SuccessKeepsOthers(q: Queue, item: Item, made: Option<int>)
    requires UniqueIds(q) && forall x :: x in q && x.id == item.id ==> x.userId == item.userId
    ensures Filter(AfterSuccess(q, item, made), NotOf(item.userId)) == Filter(q, NotOf(item.userId))
  {
    var f := Settling(q, item, made);
    AfterSuccessIs(q, item, made);
    SettledIds(q, item, made);
    forall x | x in q
      ensures (NotOf(item.userId)(f(x)) <==> NotOf(item.userId)(x)) && (NotOf(item.userId)(x) ==> f(x) == x)
    {
      SettledShape(q, item, made, x);
    }
    FilterMapped(q, f, NotOf(item.userId));
    var all := Mapped(q, f);
    forall y | y in all && NotOf(item.userId)(y) ensures OtherThan(item.id)(y) {
      var n :| 0 <= n < |all| && all[n] == y;
      SettledShape(q, item, made, q[n]);
    }
    FilterTwice(all, OtherThan(item.id), NotOf(item.userId));
  }

  /** And so does a failure write. */
  lemma FailureKeepsOthers(q: Queue, id: string, status: Option<int>, final: bool, maxAttempts: nat, user: string)
    requires forall x :: x in q && x.id == id ==> x.userId == user
    ensures Filter(AfterFailure(q, id, status, final, maxAttempts), NotOf(user)) == Filter(q, NotOf(user))
  {
    FilterMapped(q, (i: Item) => if i.id == id then FailedTry(i, status, final, maxAttempts) else i, NotOf(user));
    assert AfterFailure(q, id, status, final, maxAttempts)
        == Mapped(q, (i: Item) => if i.id == id then FailedTry(i, status, final, maxAttempts) else i);
  }
}
