/** What a step of the protocol makes of each queued item, and of their order. */
module StepItems {
  import opened Lists
  import opened Edits
  import opened Changes
  import opened QueueWrites
  import opened Protocol

  /** The item a step appends to the queue, if any. */
  function Added(s: State, step: Step): Option<Item>
    requires Enabled(s, step)
  {
    match step
    case QueueBehind(user, change, key, id) => Some(NewItem(id, Behind(WaitingWrites(s.queue, user, change), change), user, key))
    case SentKept(key, id) => Some(NewItem(id, s.live[key].change, s.live[key].user, key))
    case _ => None
  }

  function AddedIds(s: State, step: Step): set<string>
    requires Enabled(s, step)
  {
    if Added(s, step).Some? then {Added(s, step).value.id} else {}
  }

  /** The one item a step takes out of the queue, if any. */
  function Taken(s: State, step: Step): Option<string>
    requires Enabled(s, step)
  {
    match step
    case ReplayOk(_) => Some(CurrentItem(s).value.id)
    case ReplayHeld(_) => Some(CurrentItem(s).value.id)
    case Discard(gone) => Some(gone)
    case _ => None
  }

  predicate Takes(s: State, step: Step, id: string)
    requires Enabled(s, step)
  {
    step.Clear? || Taken(s, step) == Some(id)
  }

  /** What a step makes of an item it leaves in the queue. */
  function Moved(s: State, step: Step, x: Item): Item
    requires Enabled(s, step)
  {
    match step
    case SentOk(key, _) => if IsOrdered(s.live[key].change) then Supersede(s.live[key].user, s.live[key].change, x) else x
    case ReplayOk(made) => Settled(s.queue, CurrentItem(s).value, made, x)
    case ReplayHeld(made) => Settled(s.queue, CurrentItem(s).value, made, x)
    case ReplayFailed(status, outcome) =>
      if outcome != Pause && x.id == CurrentItem(s).value.id then FailedTry(x, status, outcome == Fail, MAX_ATTEMPTS) else x
    case RetryItem(id, freshKey) => if x.id == id then Retried(x, freshKey) else x
    case _ => x
  }

  function Moving(s: State, step: Step): Item -> Item
    requires Enabled(s, step)
  {
    (x: Item) => Moved(s, step, x)
  }

  /** The item a Pick sends. */
  function Picked(s: State): Item
    requires Enabled(s, Pick)
  {
    s.queue[NextPick(s.queue, s.flush.value.user, s.flush.value.tried)]
  }

  /** No two queued items share an id, and every id was new when its item was queued. */
  ghost predicate InvIds(s: State) {
    && UniqueIds(s.queue)
    && (forall x :: x in s.queue ==> x.id in s.hist.enqueued)
  }

  lemma NewId(s: State, id: string)
    requires InvIds(s) && id !in s.hist.enqueued
    ensures !Holds(s.queue, id)
  {
    HoldsMember(s.queue, id);
  }

  lemma MovedId(s: State, step: Step, x: Item)
    requires Enabled(s, step)
    ensures Moved(s, step, x).id == x.id && Moved(s, step, x).userId == x.userId
  {
    match step
    case SentOk(key, _) => SupersedeShape(s.live[key].user, s.live[key].change, x);
    case ReplayOk(made) => SettledShape(s.queue, CurrentItem(s).value, made, x);
    case ReplayHeld(made) => SettledShape(s.queue, CurrentItem(s).value, made, x);
    case _ =>
  }

  /** A queue cleared, or without an item, or with one more. */
  function Written(q: Queue, cleared: bool, taken: Option<string>, added: Option<Item>): Queue {
    if cleared then [] else if taken.Some? then Without(q, taken.value) else if added.Some? then q + [added.value] else q
  }

  lemma MovingIds(s: State, step: Step)
    requires Enabled(s, step)
    ensures SameIds(Mapped(s.queue, Moving(s, step)), s.queue)
  {
    forall n | 0 <= n < |s.queue| ensures Moved(s, step, s.queue[n]).id == s.queue[n].id {
      MovedId(s, step, s.queue[n]);
    }
  }

  /** Every queue write is one of four: each item moved in place, then nothing more, all cleared, one taken or one appended. */
  lemma QueueIs(s: State, step: Step)
    requires InvIds(s) && Enabled(s, step)
    ensures QueueAfter(s, step) == Written(Mapped(s.queue, Moving(s, step)), step.Clear?, Taken(s, step), Added(s, step))
  {
    var all := Mapped(s.queue, Moving(s, step));
    match step
    case ReplayOk(made) => MovingSettles(s, step, made);
    case ReplayHeld(made) => MovingSettles(s, step, made);
    case SentOk(key, _) => assert QueueAfter(s, step) == all;
    case ReplayFailed(_, _) => assert QueueAfter(s, step) == all;
    case RetryItem(_, _) => assert QueueAfter(s, step) == all;
    case _ => assert all == s.queue;
  }

  lemma MovingSettles(s: State, step: Step, made: Option<int>)
    requires InvIds(s) && Enabled(s, step) && (step == ReplayOk(made) || step == ReplayHeld(made))
    ensures QueueAfter(s, step) == Without(Mapped(s.queue, Moving(s, step)), CurrentItem(s).value.id)
  {
    var item := CurrentItem(s).value;
    AfterSuccessIs(s.queue, item, made);
    assert Mapped(s.queue, Moving(s, step)) == Mapped(s.queue, Settling(s.queue, item, made));
  }

  lemma WrittenItems(q: Queue, f: Item -> Item, cleared: bool, taken: Option<string>, added: Option<Item>)
    requires UniqueIds(q) && SameIds(Mapped(q, f), q)
    requires added.Some? ==> taken.None? && !cleared && !Holds(q, added.value.id)
    ensures var r := Written(Mapped(q, f), cleared, taken, added);
      && UniqueIds(r)
      && (forall y :: y in r ==> added == Some(y) || exists x :: x in q && !cleared && taken != Some(x.id) && y == f(x))
      && (forall x :: x in q && !cleared && taken != Some(x.id) ==> f(x) in r)
      && (added.Some? ==> added.value in r)
  {
    var all := Mapped(q, f);
    MappedMembers(q, f);
    if cleared {
    } else if taken.Some? {
      MappedWithout(q, f, taken.value);
    } else if added.Some? {
      SameIdsIndex(all, q, added.value.id);
      UniqueAppend(all, added.value);
    }
  }

  /** Every item after a step was there before it, and moved, or is the one it appends; the others were taken out. */
  lemma EveryItem(s: State, step: Step)
    requires InvIds(s) && Enabled(s, step)
    ensures forall y :: y in QueueAfter(s, step) ==>
      Added(s, step) == Some(y) || exists x :: x in s.queue && !Takes(s, step, x.id) && y == Moving(s, step)(x)
    ensures forall x :: x in s.queue && !Takes(s, step, x.id) ==> Moving(s, step)(x) in QueueAfter(s, step)
    ensures Added(s, step).Some? ==> Added(s, step).value in QueueAfter(s, step)
    ensures UniqueIds(QueueAfter(s, step))
  {
    MovingIds(s, step);
    QueueIs(s, step);
    if Added(s, step).Some? {
      NewId(s, Added(s, step).value.id);
    }
    WrittenItems(s.queue, Moving(s, step), step.Clear?, Taken(s, step), Added(s, step));
  }

  lemma MappedMembers(q: Queue, f: Item -> Item)
    ensures forall y :: y in Mapped(q, f) ==> exists x :: x in q && y == f(x)
    ensures forall x :: x in q ==> f(x) in Mapped(q, f)
  {
    forall y | y in Mapped(q, f) ensures exists x :: x in q && y == f(x) {
      var n :| 0 <= n < |Mapped(q, f)| && Mapped(q, f)[n] == y;
      assert q[n] in q;
    }
    forall x | x in q ensures f(x) in Mapped(q, f) {
      var n :| 0 <= n < |q| && q[n] == x;
      assert Mapped(q, f)[n] == f(x);
    }
  }

  /** Where ids stand after a step: as before it, without the taken ones, an appended one last. */
  lemma StepOrder(s: State, step: Step, a: string, b: string)
    requires InvIds(s) && Enabled(s, step)
    requires !Takes(s, step, a) && !Takes(s, step, b)
    requires Added(s, step).Some? ==> Added(s, step).value.id != a
    ensures Holds(QueueAfter(s, step), a) <==> Holds(s.queue, a)
    ensures Added(s, step).None? || Added(s, step).value.id != b ==>
      (Holds(QueueAfter(s, step), b) <==> Holds(s.queue, b)) && (Before(QueueAfter(s, step), a, b) <==> Before(s.queue, a, b))
    ensures Added(s, step).Some? && Added(s, step).value.id == b ==> (Before(QueueAfter(s, step), a, b) <==> Holds(s.queue, a))
  {
    MovingIds(s, step);
    QueueIs(s, step);
    var all := Mapped(s.queue, Moving(s, step));
    SameIdsIndex(all, s.queue, a);
    SameIdsIndex(all, s.queue, b);
    if Taken(s, step).Some? {
      WithoutIndex(all, Taken(s, step).value, a, b);
    } else if Added(s, step).Some? {
      NewId(s, Added(s, step).value.id);
      IndexAppend(all, Added(s, step).value, a);
      IndexAppend(all, Added(s, step).value, b);
    }
  }

  lemma EnqueuedGrows(s: State, step: Step)
    requires Enabled(s, step)
    ensures HistoryAfter(s, step).enqueued == s.hist.enqueued + AddedIds(s, step)
  {
  }

  /** Where an item after a step comes from, when it isn't the appended one. */
  lemma CameFrom(s: State, step: Step, y: Item) returns (x: Item)
    requires InvIds(s) && Enabled(s, step)
    requires y in QueueAfter(s, step) && Added(s, step) != Some(y)
    ensures x in s.queue && !Takes(s, step, x.id) && y == Moved(s, step, x) && x.id == y.id
  {
    EveryItem(s, step);
    x :| x in s.queue && !Takes(s, step, x.id) && y == Moving(s, step)(x);
    MovedId(s, step, x);
  }

  lemma UniqueKept(s: State, step: Step)
    requires InvIds(s) && Enabled(s, step)
    ensures UniqueIds(QueueAfter(s, step))
  {
    EveryItem(s, step);
  }

  lemma IdsKept(s: State, step: Step)
    requires InvIds(s) && Enabled(s, step)
    ensures InvIds(Apply(s, step))
  {
    UniqueKept(s, step);
    EnqueuedGrows(s, step);
    forall y | y in QueueAfter(s, step) ensures y.id in HistoryAfter(s, step).enqueued {
      if Added(s, step) != Some(y) {
        var x := CameFrom(s, step, y);
      }
    }
  }

  /** The same queued change, however it was moved. */
  ghost predicate Kin(a: Item, b: Item) {
    a.id == b.id && a.userId == b.userId && Origin(a) == Origin(b) && KinChange(a.change, b.change)
  }

  lemma MovedKin(s: State, step: Step, x: Item)
    requires Enabled(s, step)
    ensures Kin(Moved(s, step, x), x)
  {
    match step
    case SentOk(key, _) => SupersedeShape(s.live[key].user, s.live[key].change, x);
    case ReplayOk(made) => SettledShape(s.queue, CurrentItem(s).value, made, x);
    case ReplayHeld(made) => SettledShape(s.queue, CurrentItem(s).value, made, x);
    case _ =>
  }

  /** The item being replayed is still the queued one, if that is still there; a flush only sends its own user's. */
  ghost predicate InvCurrent(s: State) {
    CurrentItem(s).Some? ==>
      && CurrentItem(s).value.id in s.hist.enqueued
      && CurrentItem(s).value.id in s.flush.value.tried
      && CurrentItem(s).value.userId == s.flush.value.user
      && (forall x :: x in s.queue && x.id == CurrentItem(s).value.id ==> Kin(x, CurrentItem(s).value))
  }

  /** The item in flight after a step: none, the one just picked, or the same as before. */
  lemma CurrentAfter(s: State, step: Step)
    requires Enabled(s, step)
    ensures step.Pick? || CurrentItem(Apply(s, step)).None? || FlushAfter(s, step) == s.flush
  {
  }

  lemma CurrentKept(s: State, step: Step)
    requires InvIds(s) && InvCurrent(s) && Enabled(s, step)
    ensures InvCurrent(Apply(s, step))
  {
    CurrentAfter(s, step);
    if step.Pick? {
      PickedKept(s);
    } else if CurrentItem(Apply(s, step)).Some? {
      SameCurrentKept(s, step);
    }
  }

  lemma PickedKept(s: State)
    requires InvIds(s) && Enabled(s, Pick)
    ensures InvCurrent(Apply(s, Pick))
  {
    var at := NextPick(s.queue, s.flush.value.user, s.flush.value.tried);
    assert s.queue[at] in s.queue;
    forall x | x in s.queue && x.id == s.queue[at].id ensures x == s.queue[at] {
      MemberHolds(s.queue, x);
      IndexAt(s.queue, at);
    }
  }

  lemma SameCurrentKept(s: State, step: Step)
    requires InvIds(s) && InvCurrent(s) && Enabled(s, step)
    requires CurrentItem(s).Some? && FlushAfter(s, step) == s.flush
    ensures InvCurrent(Apply(s, step))
  {
    var current := CurrentItem(s).value;
    EnqueuedGrows(s, step);
    forall y | y in QueueAfter(s, step) && y.id == current.id ensures Kin(y, current) {
      if Added(s, step) != Some(y) {
        var x := CameFrom(s, step, y);
        MovedKin(s, step, x);
      }
    }
  }
}
