/** An older change that failed can never undo a newer one of the same thing when it is tried again. */
module StaleUndo {
  import opened Lists
  import opened Changes
  import opened QueueWrites
  import opened Protocol
  import opened StepItems
  import opened Ordering
  import opened Continuations

  /** `x` is an older change of the same thing: it was queued when `done` was made, which must follow it. */
  predicate IsOlder(user: string, done: Change, ahead: set<string>, x: Item) {
    x.userId == user && x.id in ahead && MustFollow(done, x.change)
  }

  function AheadOf(s: State, id: string): set<string> {
    if id in s.hist.ahead then s.hist.ahead[id] else {}
  }

  /** The server has answered this POST's key with a refusal: it takes the request no more. */
  predicate IsTurnedDown(server: Server, r: Request) {
    IsPost(r.change) && IsRefused(server.answers, r.key)
  }

  /** `done` sets something that `x` would set too; a contact's removal is the exception. */
  ghost predicate Overrides(user: string, done: Change, ahead: set<string>, x: Item) {
    IsOlder(user, done, ahead, x) && !Apart(done, x.change) && !KeptRemoval(done, x.change)
  }

  /** A newer change of what `x` sets is being replayed, and not refused. */
  ghost predicate CurrentOver(s: State, x: Item) {
    CurrentItem(s).Some? &&
    var c := CurrentItem(s).value;
    Overrides(c.userId, c.change, AheadOf(s, c.id), x) && !IsTurnedDown(s.server, RequestOf(c))
  }

  /** Or is being sent now. */
  ghost predicate LiveOver(s: State, k: string, x: Item) {
    k in s.live && Overrides(s.live[k].user, s.live[k].change, s.live[k].ahead, x) && !IsTurnedDown(s.server, LiveRequest(k, s.live[k]))
  }

  ghost predicate GoneOver(s: State, x: Item) {
    CurrentOver(s, x) || exists k :: LiveOver(s, k, x)
  }

  /** The change puts something on the server in its own state. */
  ghost predicate Sets(c: Change) {
    exists cell :: Touches(c, cell)
  }

  /**
    * Retry isn't pressed on a change that sets something and that the running flush has tried, nor while a later one
    * that sets what it sets is on its way.
    */
  ghost predicate Undisturbed(s: State, step: Step)
    requires Enabled(s, step)
  {
    step.RetryItem? ==> !RetriesSetter(s, step.id) && !RetriesUnder(s, step.id)
  }

  ghost predicate RetriesSetter(s: State, id: string) {
    RetriesTried(s, id) && Sets(s.queue[IndexOf(s.queue, id)].change)
  }

  ghost predicate RetriesUnder(s: State, id: string) {
    Holds(s.queue, id) && !s.queue[IndexOf(s.queue, id)].superseded && GoneOver(s, s.queue[IndexOf(s.queue, id)])
  }

  ghost predicate UndisturbedTrace(states: seq<State>, steps: seq<Step>) {
    IsTrace(states, steps) && forall n :: 0 <= n < |steps| ==> OneStep(states[n], steps[n], states[n + 1]) && Undisturbed(states[n], steps[n])
  }

  // ---- Older changes stay failed while a newer one is on its way ------------------------------------

  /** An item queued when another was stands before it. */
  ghost predicate InvAhead(s: State) {
    && (forall y, a :: y in s.queue && y.id in s.hist.ahead && a in s.hist.ahead[y.id] && Holds(s.queue, a) ==> Before(s.queue, a, y.id))
    && (forall id :: id in s.hist.ahead ==> id in s.hist.enqueued && s.hist.ahead[id] <= s.hist.enqueued)
    && (forall k :: k in s.live ==> s.live[k].ahead <= s.hist.enqueued)
  }

  lemma AheadAfter(s: State, step: Step)
    requires Enabled(s, step)
    ensures HistoryAfter(s, step).ahead == if Added(s, step).Some? then s.hist.ahead[Added(s, step).value.id := Ids(s.queue)] else s.hist.ahead
    ensures forall k :: k in LiveAfter(s, step) ==>
      LiveAfter(s, step)[k] == if k in s.live && !(step.SendNow? && step.key == k) then s.live[k] else Live(step.user, step.change, Ids(s.queue))
  {
  }

  lemma AheadKept(s: State, step: Step)
    requires InvIds(s) && InvAhead(s) && Enabled(s, step)
    ensures InvAhead(Apply(s, step))
  {
    AheadAfter(s, step);
    EnqueuedGrows(s, step);
    var q, ahead := QueueAfter(s, step), HistoryAfter(s, step).ahead;
    assert Ids(s.queue) <= s.hist.enqueued;
    forall y, a | y in q && y.id in ahead && a in ahead[y.id] && Holds(q, a) ensures Before(q, a, y.id) {
      AheadStands(s, step, y, a);
    }
  }

  lemma AheadStands(s: State, step: Step, y: Item, a: string)
    requires InvIds(s) && InvAhead(s) && Enabled(s, step)
    requires y in QueueAfter(s, step) && y.id in HistoryAfter(s, step).ahead && a in HistoryAfter(s, step).ahead[y.id] && Holds(QueueAfter(s, step), a)
    ensures Before(QueueAfter(s, step), a, y.id)
  {
    AheadAfter(s, step);
    if Added(s, step).Some? { NewId(s, Added(s, step).value.id); }
    HoldsMember(QueueAfter(s, step), a);
    var z := QueueAfter(s, step)[IndexOf(QueueAfter(s, step), a)];
    if Added(s, step) == Some(z) {
      FreshAhead(s, step, y, a);
    } else {
      var w := CameFrom(s, step, z);
      MemberHolds(s.queue, w);
      if Added(s, step) != Some(y) {
        var x := CameFrom(s, step, y);
        MemberHolds(s.queue, x);
        assert Before(s.queue, a, x.id);
        StepOrder(s, step, a, y.id);
      } else {
        StepOrder(s, step, a, y.id);
      }
    }
  }

  /** Nothing was queued behind an item that is only now appended. */
  lemma FreshAhead(s: State, step: Step, y: Item, a: string)
    requires InvIds(s) && InvAhead(s) && Enabled(s, step) && Added(s, step).Some? && Added(s, step).value.id == a
    requires y in QueueAfter(s, step) && y.id in HistoryAfter(s, step).ahead
    ensures a !in HistoryAfter(s, step).ahead[y.id]
  {
    AheadAfter(s, step);
    assert Ids(s.queue) <= s.hist.enqueued;
    assert a !in s.hist.enqueued;
  }

  /** Older changes of what is being replayed or sent now have failed; what is replayed still waits; only failed ones are blocked. */
  ghost predicate GoodOlder(s: State, x: Item) {
    && (GoneOver(s, x) ==> x.status == Failed)
    && (CurrentItem(s).Some? && CurrentItem(s).value.id == x.id ==> x.status == Pending)
    && (x.superseded ==> x.status == Failed)
  }

  ghost predicate InvOlder(s: State) {
    forall x :: x in s.queue ==> GoodOlder(s, x)
  }

  lemma RefusalsStay(s: State, step: Step, r: Request)
    requires Enabled(s, step) && IsTurnedDown(s.server, r)
    ensures IsTurnedDown(ServerAfter(s, step), r)
  {
  }

  lemma StillOverrides(s: State, step: Step, x: Item, user: string, done: Change, ahead: set<string>)
    requires InvIds(s) && Enabled(s, step) && x in s.queue && Overrides(user, done, ahead, Moved(s, step, x))
    ensures Overrides(user, done, ahead, x)
  {
    MovedKin(s, step, x);
    MovedTouches(s, step, x);
    KinFollowed(Moved(s, step, x).change, x.change, done);
  }

  /** A change goes over an item after a step only if it did before, or starts to now. */
  lemma GoneOverAfter(s: State, step: Step, x: Item)
    requires InvIds(s) && InvCurrent(s) && InvAhead(s) && Enabled(s, step) && x in s.queue && GoneOver(Apply(s, step), Moved(s, step, x))
    ensures GoneOver(s, x)
         || (step.Pick? && Overrides(Picked(s).userId, Picked(s).change, AheadOf(s, Picked(s).id), x))
         || (step.SendNow? && IsOlder(step.user, step.change, Ids(s.queue), x))
  {
    var t, y := Apply(s, step), Moved(s, step, x);
    if CurrentOver(t, y) {
      CurrentOverAfter(s, step, x);
    } else {
      var k :| LiveOver(t, k, y);
      LiveOverAfter(s, step, x, k);
    }
  }

  lemma LiveOverAfter(s: State, step: Step, x: Item, k: string)
    requires InvIds(s) && Enabled(s, step) && x in s.queue && LiveOver(Apply(s, step), k, Moved(s, step, x))
    ensures LiveOver(s, k, x) || (step.SendNow? && IsOlder(step.user, step.change, Ids(s.queue), x))
  {
    var t := Apply(s, step);
    AheadAfter(s, step);
    StillOverrides(s, step, x, t.live[k].user, t.live[k].change, t.live[k].ahead);
    if k in s.live && !(step.SendNow? && step.key == k) {
      if IsTurnedDown(s.server, LiveRequest(k, s.live[k])) { RefusalsStay(s, step, LiveRequest(k, s.live[k])); }
    }
  }

  lemma CurrentOverAfter(s: State, step: Step, x: Item)
    requires InvIds(s) && InvCurrent(s) && InvAhead(s) && Enabled(s, step) && x in s.queue && CurrentOver(Apply(s, step), Moved(s, step, x))
    ensures if step.Pick? then Overrides(Picked(s).userId, Picked(s).change, AheadOf(s, Picked(s).id), x) else CurrentOver(s, x)
  {
    var c := CurrentItem(Apply(s, step)).value;
    StillOverrides(s, step, x, c.userId, c.change, AheadOf(Apply(s, step), c.id));
    CurrentAfter(s, step);
    AheadAfter(s, step);
    if Added(s, step).Some? {
      assert x.id in s.hist.enqueued;
      SameAhead(s, step, c.id, x.id);
    }
    if !step.Pick? && IsTurnedDown(s.server, RequestOf(c)) { RefusalsStay(s, step, RequestOf(c)); }
  }

  lemma SameAhead(s: State, step: Step, id: string, a: string)
    requires Enabled(s, step) && a in AheadOf(Apply(s, step), id) && CurrentItem(s).Some? && CurrentItem(s).value.id == id
    requires Added(s, step).Some? ==> Added(s, step).value.id != id
    ensures a in AheadOf(s, id)
  {
    AheadAfter(s, step);
  }

  /** What a flush has tried, sets something and can be followed is in flight, gone, or failed. */
  ghost predicate SetterDone(flush: Option<Flush>, x: Item) {
    IsTried(flush, x) && SubjectOf(x.change).Some? && Sets(x.change) ==> x.status == Failed
  }

  ghost predicate InvSetters(s: State) {
    forall x :: x in s.queue ==> SetterDone(s.flush, x)
  }

  lemma SetterKept(s: State, step: Step, x: Item)
    requires InvIds(s) && InvSetters(s) && Enabled(s, step) && Undisturbed(s, step) && x in s.queue && !Takes(s, step, x.id)
    ensures SetterDone(FlushAfter(s, step), Moved(s, step, x))
  {
    MovedKin(s, step, x);
    MovedTouches(s, step, x);
    assert SetterDone(s.flush, x);
    MemberHolds(s.queue, x);
    if x.status == Failed && !(step.RetryItem? && step.id == x.id) {
      StaysFailed(s, step, x);
    }
  }

  lemma SettersKept(s: State, step: Step)
    requires InvIds(s) && InvUsers(s) && InvSetters(s) && Enabled(s, step) && Undisturbed(s, step)
    ensures InvSetters(Apply(s, step))
  {
    forall y | y in QueueAfter(s, step) ensures SetterDone(FlushAfter(s, step), y) {
      if Added(s, step) == Some(y) {
        AddedUser(s, step);
      } else {
        var x := CameFrom(s, step, y);
        SetterKept(s, step, x);
      }
    }
  }

  lemma PickedOlderFailed(s: State, x: Item)
    requires InvIds(s) && InvSetters(s) && InvAhead(s) && Enabled(s, Pick) && x in s.queue
    requires Overrides(Picked(s).userId, Picked(s).change, AheadOf(s, Picked(s).id), x)
    ensures x.status == Failed
  {
    MemberHolds(s.queue, x);
    assert Picked(s) in s.queue;
    assert Before(s.queue, x.id, Picked(s).id);
    IndexAt(s.queue, NextPick(s.queue, s.flush.value.user, s.flush.value.tried));
    assert SetterDone(s.flush, x);
  }

  lemma SentNowOlderFailed(s: State, step: Step, x: Item)
    requires Enabled(s, step) && step.SendNow? && x in s.queue && IsOlder(step.user, step.change, Ids(s.queue), x)
    ensures x.status == Failed
  {
    SentNowFollowsNothing(s, step.user, step.change, step.key);
    assert !WaitsFor(step.user, step.change, x);
  }

  /** What a step does to an item's standing: only a Retry makes it wait again, only a try of itself fails it. */
  lemma MovedStanding(s: State, step: Step, x: Item)
    requires InvIds(s) && Enabled(s, step) && x in s.queue
    ensures var y := Moved(s, step, x);
      && (step.RetryItem? && step.id == x.id && !x.superseded ==> y.status == Pending && !y.superseded)
      && (step.RetryItem? && step.id == x.id && x.superseded ==> y == x)
      && (step.ReplayFailed? && CurrentItem(s).value.id == x.id ==> y.superseded == x.superseded && (y.status == x.status || step.outcome != Pause))
      && (!(step.RetryItem? && step.id == x.id) && !(step.ReplayFailed? && CurrentItem(s).value.id == x.id) ==> y.status == x.status)
      && (x.superseded ==> y.superseded)
      && (y.superseded && !x.superseded ==> x.status == Failed && (step.SentOk? || step.ReplayOk? || step.ReplayHeld?))
  {
    match step
    case SentOk(key, _) => SupersedeShape(s.live[key].user, s.live[key].change, x);
    case ReplayOk(made) => SettledShape(s.queue, CurrentItem(s).value, made, x);
      SupersedeShape(CurrentItem(s).value.userId, CurrentItem(s).value.change, x);
    case ReplayHeld(made) => SettledShape(s.queue, CurrentItem(s).value, made, x);
      SupersedeShape(CurrentItem(s).value.userId, CurrentItem(s).value.change, x);
    case _ =>
  }

  lemma ItemOlder(s: State, step: Step, x: Item)
    requires InvIds(s) && InvCurrent(s) && InvSetters(s) && InvAhead(s) && InvOlder(s) && Enabled(s, step) && Undisturbed(s, step)
    requires x in s.queue && !Takes(s, step, x.id)
    ensures GoodOlder(Apply(s, step), Moved(s, step, x))
  {
    var t, y := Apply(s, step), Moved(s, step, x);
    MovedStanding(s, step, x);
    MovedId(s, step, x);
    MemberHolds(s.queue, x);
    CurrentAfter(s, step);
    assert GoodOlder(s, x);
    if GoneOver(t, y) {
      GoneOverAfter(s, step, x);
      if step.Pick? && !GoneOver(s, x) { PickedOlderFailed(s, x); }
      if step.SendNow? && !GoneOver(s, x) { SentNowOlderFailed(s, step, x); }
    }
    if step.Pick? && Picked(s).id == x.id {
      IndexAt(s.queue, NextPick(s.queue, s.flush.value.user, s.flush.value.tried));
    }
  }

  lemma AddedOlder(s: State, step: Step)
    requires InvIds(s) && InvCurrent(s) && InvAhead(s) && Enabled(s, step) && Added(s, step).Some?
    ensures GoodOlder(Apply(s, step), Added(s, step).value)
  {
    var t, y := Apply(s, step), Added(s, step).value;
    AheadAfter(s, step);
    assert y.id !in s.hist.enqueued;
    forall k | k in t.live ensures y.id !in t.live[k].ahead {
      assert k in s.live;
    }
  }

  lemma OlderKept(s: State, step: Step)
    requires InvIds(s) && InvCurrent(s) && InvSetters(s) && InvAhead(s) && InvOlder(s) && Enabled(s, step) && Undisturbed(s, step)
    ensures InvOlder(Apply(s, step))
  {
    var t := Apply(s, step);
    forall y | y in t.queue ensures GoodOlder(t, y) {
      if Added(s, step) == Some(y) {
        AddedOlder(s, step);
      } else {
        var x := CameFrom(s, step, y);
        ItemOlder(s, step, x);
      }
    }
  }

  // ---- What is left of an older change -----------------------------------------------------------------

  /** Nothing `done` touched is touched by `x` any more, or `x` is blocked; a contact's removal is the exception. */
  ghost predicate Harmless(done: Change, x: Item) {
    x.superseded || KeptRemoval(done, x.change) || Apart(done, x.change)
  }

  ghost predicate InvOver(s: State) {
    && (forall x, done :: x in s.queue && (x.id, done) in s.hist.over ==> Harmless(done, x))
    && (forall id, done :: (id, done) in s.hist.over ==> id in s.hist.enqueued)
  }

  /** The law of superseding, for a change that goes over an older failed one. */
  lemma SupersededHarmless(user: string, done: Change, x: Item)
    requires x.userId == user && x.status == Failed && MustFollow(done, x.change)
    ensures Harmless(done, Supersede(user, done, x))
  {
    if !x.superseded && !done.TaskDelete? && !KeptRemoval(done, x.change) {
      SupersedeTrims(user, done, x);
    }
    if !x.superseded && KeptRemoval(done, x.change) {
      assert Supersede(user, done, x) == x;
    }
  }

  lemma HarmlessMoved(done: Change, x: Item, y: Item)
    requires Harmless(done, x) && KinChange(y.change, x.change) && (x.superseded ==> y.superseded)
    requires forall cell :: Touches(y.change, cell) ==> Touches(x.change, cell)
    ensures Harmless(done, y)
  {
  }

  lemma MovedTouches(s: State, step: Step, x: Item)
    requires InvIds(s) && Enabled(s, step) && x in s.queue
    ensures forall cell :: Touches(Moved(s, step, x).change, cell) ==> Touches(x.change, cell)
  {
    match step
    case SentOk(key, _) => SupersedeShape(s.live[key].user, s.live[key].change, x);
    case ReplayOk(made) => SettledShape(s.queue, CurrentItem(s).value, made, x);
    case ReplayHeld(made) => SettledShape(s.queue, CurrentItem(s).value, made, x);
    case _ =>
  }

  /** A step makes `done` go over `x`: its success is answered, or written. */
  predicate GoesOver(s: State, step: Step, done: Change, x: Item)
    requires Enabled(s, step)
  {
    if step.SentOk? then
      done == s.live[step.key].change && IsOlder(s.live[step.key].user, done, s.live[step.key].ahead, x)
    else if step.ReplayOk? || step.ReplayHeld? then
      done == CurrentItem(s).value.change && IsOlder(CurrentItem(s).value.userId, done, AheadOf(s, CurrentItem(s).value.id), x)
    else false
  }

  /** The pairs a step records. */
  lemma OverAfter(s: State, step: Step, id: string, done: Change)
    requires Enabled(s, step) && (id, done) in HistoryAfter(s, step).over && (id, done) !in s.hist.over
    ensures exists x :: x in s.queue && x.id == id && GoesOver(s, step, done, x)
  {
  }

  /** An answered success of a POST is the server's own. */
  ghost predicate InvReplies(s: State) {
    forall r, made :: (r, made) in s.server.replies && IsPost(r.change) ==> r.key in s.server.answers && s.server.answers[r.key] == Verdict.Done
  }

  lemma RepliesKept(s: State, step: Step)
    requires InvReplies(s) && Enabled(s, step)
    ensures InvReplies(Apply(s, step))
  {
  }

  /** What a success goes over was under it before, or has nothing in common with it. */
  lemma OverBefore(s: State, step: Step, x: Item, done: Change)
    requires InvReplies(s) && Enabled(s, step) && GoesOver(s, step, done, x)
    ensures GoneOver(s, x) || Apart(done, x.change) || KeptRemoval(done, x.change)
  {
    if step.SentOk? {
      assert !IsTurnedDown(s.server, LiveRequest(step.key, s.live[step.key]));
      assert LiveOver(s, step.key, x) || Apart(done, x.change) || KeptRemoval(done, x.change);
    }
  }

  lemma NewlyOver(s: State, step: Step, x: Item, done: Change)
    requires InvIds(s) && InvAhead(s) && InvOlder(s) && InvReplies(s) && Enabled(s, step) && x in s.queue && !Takes(s, step, x.id)
    requires GoesOver(s, step, done, x)
    ensures Harmless(done, Moved(s, step, x))
  {
    assert GoodOlder(s, x);
    OverBefore(s, step, x, done);
    if !GoneOver(s, x) {
      MovedKin(s, step, x);
      MovedTouches(s, step, x);
      MovedStanding(s, step, x);
      HarmlessMoved(done, x, Moved(s, step, x));
    } else if step.SentOk? {
      OnlyOrderedWait(done, x.change);
      SupersededHarmless(s.live[step.key].user, done, x);
    } else {
      OlderIsMarked(s, x);
      SettledHarmless(s.queue, CurrentItem(s).value, step.made, x);
    }
  }

  lemma SettledHarmless(q: Queue, item: Item, made: Option<int>, x: Item)
    requires Marked(q, item, x) == Supersede(item.userId, item.change, x)
    requires x.userId == item.userId && x.status == Failed && MustFollow(item.change, x.change)
    ensures Harmless(item.change, Settled(q, item, made, x))
  {
    SupersededHarmless(item.userId, item.change, x);
    var y := Marked(q, item, x);
    RebaseShape(item.change, made, y);
    HarmlessMoved(item.change, y, Settled(q, item, made, x));
  }

  /** The success write supersedes every older change of the same thing. */
  lemma OlderIsMarked(s: State, x: Item)
    requires InvIds(s) && InvAhead(s) && x in s.queue && CurrentItem(s).Some?
    requires x.id in AheadOf(s, CurrentItem(s).value.id)
    ensures var item := CurrentItem(s).value;
      Marked(s.queue, item, x) == Supersede(item.userId, item.change, x)
  {
    var item := CurrentItem(s).value;
    MemberHolds(s.queue, x);
    if Holds(s.queue, item.id) {
      HoldsMember(s.queue, item.id);
    }
  }

  lemma OverKept(s: State, step: Step)
    requires InvIds(s) && InvAhead(s) && InvOlder(s) && InvReplies(s) && InvOver(s) && Enabled(s, step)
    ensures InvOver(Apply(s, step))
  {
    var q, over := QueueAfter(s, step), HistoryAfter(s, step).over;
    EnqueuedGrows(s, step);
    forall id, done | (id, done) in over ensures id in HistoryAfter(s, step).enqueued {
      if (id, done) !in s.hist.over { OverAfter(s, step, id, done); }
    }
    forall y, done | y in q && (y.id, done) in over ensures Harmless(done, y) {
      if Added(s, step) == Some(y) {
        if (y.id, done) !in s.hist.over { OverAfter(s, step, y.id, done); }
      } else {
        var x := CameFrom(s, step, y);
        OverItemKept(s, step, x, done);
      }
    }
  }

  lemma OverItemKept(s: State, step: Step, x: Item, done: Change)
    requires InvIds(s) && InvAhead(s) && InvOlder(s) && InvReplies(s) && InvOver(s) && Enabled(s, step)
    requires x in s.queue && !Takes(s, step, x.id) && (x.id, done) in HistoryAfter(s, step).over
    ensures Harmless(done, Moved(s, step, x))
  {
    if (x.id, done) in s.hist.over {
      MovedKin(s, step, x);
      MovedTouches(s, step, x);
      MovedStanding(s, step, x);
      HarmlessMoved(done, x, Moved(s, step, x));
    } else {
      OverAfter(s, step, x.id, done);
      var z :| z in s.queue && z.id == x.id && GoesOver(s, step, done, z);
      MemberHolds(s.queue, x);
      MemberHolds(s.queue, z);
      NewlyOver(s, step, x, done);
    }
  }

  lemma {:induction false} StaleInvariant(states: seq<State>, steps: seq<Step>, n: nat)
    requires UndisturbedTrace(states, steps) && n <= |steps|
    ensures var s := states[n]; InvIds(s) && InvCurrent(s) && InvSetters(s) && InvAhead(s) && InvOlder(s) && InvReplies(s) && InvOver(s)
  {
    if n > 0 {
      var s, last := states[n - 1], steps[n - 1];
      StaleInvariant(states, steps, n - 1);
      assert OneStep(s, last, states[n]);
      IdsKept(s, last);
      CurrentKept(s, last);
      UsersInvariant(states, steps, n - 1);
      SettersKept(s, last);
      AheadKept(s, last);
      OlderKept(s, last);
      RepliesKept(s, last);
      OverKept(s, last);
    }
  }

  /**
    * No stale undo: whenever a flush sends a change, nothing is touched by it that a later change of the same
    * thing has set whose success the client has written since; only a contact's removal can still go over a
    * later change of that contact. (Of one that landed, and whose success was never written, see `LandedUndo`.)
    */
  lemma NoStaleUndo(states: seq<State>, steps: seq<Step>, n: nat, done: Change)
    requires UndisturbedTrace(states, steps) && n <= |steps| && Enabled(states[n], Pick)
    requires (Picked(states[n]).id, done) in states[n].hist.over
    ensures KeptRemoval(done, Picked(states[n]).change) || Apart(done, Picked(states[n]).change)
  {
    StaleInvariant(states, steps, n);
    assert Picked(states[n]) in states[n].queue;
    assert GoodOlder(states[n], Picked(states[n]));
    assert Harmless(done, Picked(states[n]));
  }

  // ---- Why the guard is needed ----------------------------------------------------------------------------

  lemma StaysOver(s: State, step: Step, x: Item)
    requires Enabled(s, step) && step.RetryItem? && GoneOver(s, x)
    ensures GoneOver(Apply(s, step), Moved(s, step, x))
  {
    MovedKin(s, step, x);
    assert Moved(s, step, x).change == x.change;
    if !CurrentOver(s, x) {
      var k :| LiveOver(s, k, x);
      assert LiveOver(Apply(s, step), k, Moved(s, step, x));
    }
  }

  /** What is on its way was sent. */
  ghost predicate InvSent(s: State) {
    && (forall k :: k in s.live ==> LiveRequest(k, s.live[k]) in s.net)
    && (CurrentItem(s).Some? ==> RequestOf(CurrentItem(s).value) in s.net)
  }

  lemma SentKeptOn(s: State, step: Step)
    requires InvSent(s) && Enabled(s, step)
    ensures InvSent(Apply(s, step))
  {
    CurrentAfter(s, step);
    AheadAfter(s, step);
  }

  lemma {:induction false} SentInvariant(states: seq<State>, steps: seq<Step>, n: nat)
    requires IsTrace(states, steps) && n <= |steps|
    ensures InvSent(states[n])
  {
    if n > 0 {
      SentInvariant(states, steps, n - 1);
      assert OneStep(states[n - 1], steps[n - 1], states[n]);
      SentKeptOn(states[n - 1], steps[n - 1]);
    }
  }

  /** The server takes the newer change, and answers it. */
  lemma Lands(s: State, r: Request, cell: Cell) returns (t: State, made: Option<int>)
    requires r in s.net && !IsTurnedDown(s.server, r) && Touches(r.change, cell)
    ensures Enabled(s, Accept(r)) && t == Apply(s, Accept(r)) && (r, made) in t.server.replies
    ensures t.queue == s.queue && t.live == s.live && t.flush == s.flush && t.hist == s.hist.(waits := t.hist.waits)
  {
    t := Apply(s, Accept(r));
    made := if IsPost(r.change) then None else if IsVersioned(r.change) then Some(VersionOf(t, r.change.id)) else None;
  }

  /** A waiting item is left as it is by a success, but for an edit's version. */
  lemma WaitingStays(s: State, step: Step, y: Item, cell: Cell)
    requires Enabled(s, step) && (step.SentOk? || step.ReplayOk?) && y.status == Pending && Touches(y.change, cell)
    ensures Moved(s, step, y) == y
  {
  }

  /** The two steps of a success, while an older change waits. */
  lemma TwoSteps(s: State, r: Request, ok: Step, y: Item, done: Change, cell: Cell) returns (t: State)
    requires InvIds(s) && y in s.queue && y.status == Pending && Touches(y.change, cell) && Enabled(s, Accept(r))
    requires var landed := Apply(s, Accept(r));
      landed.queue == s.queue && Enabled(landed, ok) && (ok.SentOk? || ok.ReplayOk?) && !Takes(landed, ok, y.id) && GoesOver(landed, ok, done, y)
    ensures Leads(s, [Accept(r), ok]) == Some(t) && InvIds(t) && y in t.queue && (y.id, done) in t.hist.over
  {
    var landed := Apply(s, Accept(r));
    t := Apply(landed, ok);
    IdsKept(s, Accept(r));
    IdsKept(landed, ok);
    WaitingStays(landed, ok, y, cell);
    MovedInQueue(landed, ok, y);
    OverRecorded(landed, ok, y, done);
    LeadsOne(s, Accept(r));
    LeadsSnoc(s, [Accept(r)], ok);
    assert [Accept(r)] + [ok] == [Accept(r), ok];
  }

  lemma OverRecorded(s: State, ok: Step, y: Item, done: Change)
    requires Enabled(s, ok) && y in s.queue && GoesOver(s, ok, done, y)
    ensures (y.id, done) in HistoryAfter(s, ok).over
  {
  }

  /** A newer change being sent now succeeds, while the older one waits. */
  lemma LiveSucceeds(s: State, k: string, y: Item) returns (steps: seq<Step>, t: State)
    requires InvIds(s) && InvSent(s) && LiveOver(s, k, y) && y in s.queue && y.status == Pending
    ensures Leads(s, steps) == Some(t) && NoRetry(steps) && InvIds(t) && y in t.queue && (y.id, s.live[k].change) in t.hist.over
  {
    var cell :| Touches(s.live[k].change, cell) && Touches(y.change, cell);
    var r := LiveRequest(k, s.live[k]);
    var landed, made := Lands(s, r, cell);
    steps := [Accept(r), SentOk(k, made)];
    t := TwoSteps(s, r, SentOk(k, made), y, s.live[k].change, cell);
  }

  /** Or the one being replayed does. */
  lemma CurrentSucceeds(s: State, y: Item) returns (steps: seq<Step>, t: State)
    requires InvIds(s) && InvAhead(s) && InvSent(s) && CurrentOver(s, y) && y in s.queue && y.status == Pending
    ensures Leads(s, steps) == Some(t) && NoRetry(steps) && InvIds(t) && y in t.queue && (y.id, CurrentItem(s).value.change) in t.hist.over
  {
    var c := CurrentItem(s).value;
    var cell :| Touches(c.change, cell) && Touches(y.change, cell);
    var landed, made := Lands(s, RequestOf(c), cell);
    NotAheadOfItself(s, y);
    steps := [Accept(RequestOf(c)), ReplayOk(made)];
    NoRetryTwo(Accept(RequestOf(c)), ReplayOk(made));
    t := TwoSteps(s, RequestOf(c), ReplayOk(made), y, c.change, cell);
  }

  lemma NotAheadOfItself(s: State, y: Item)
    requires InvIds(s) && InvAhead(s) && y in s.queue
    ensures y.id !in AheadOf(s, y.id)
  {
    MemberHolds(s.queue, y);
    assert !Before(s.queue, y.id, y.id);
  }

  /** Whatever newer change is on its way over a waiting one can succeed. */
  lemma Wins(s: State, y: Item) returns (done: Change, steps: seq<Step>, t: State)
    requires InvIds(s) && InvAhead(s) && InvSent(s) && GoneOver(s, y) && y in s.queue && y.status == Pending
    ensures Leads(s, steps) == Some(t) && NoRetry(steps) && InvIds(t) && y in t.queue && (y.id, done) in t.hist.over
    ensures !Apart(done, y.change) && !KeptRemoval(done, y.change)
  {
    if CurrentOver(s, y) {
      done := CurrentItem(s).value.change;
      steps, t := CurrentSucceeds(s, y);
    } else {
      var k :| LiveOver(s, k, y);
      done := s.live[k].change;
      steps, t := LiveSucceeds(s, k, y);
    }
  }

  /** Whatever waits is sent, when everything else is discarded. */
  lemma SendsIt(s: State, y: Item) returns (steps: seq<Step>, t: State)
    requires UniqueIds(s.queue) && y in s.queue && y.status == Pending && y.userId != ""
    ensures Leads(s, steps) == Some(t) && NoRetry(steps) && Enabled(t, Pick) && Picked(t) == y && t.hist.over == s.hist.over
  {
    var alone, u := KeepOnly(s, y);
    var send;
    send, t := SendsAlone(u, y);
    LeadsOn(s, alone, send);
    steps := alone + send;
  }

  /** A retried change waits, under the newer one on its way. */
  lemma RetriedUnder(s: State, x: Item, freshKey: string) returns (again: State, y: Item)
    requires InvIds(s) && InvAhead(s) && InvSent(s) && Enabled(s, RetryItem(x.id, freshKey))
    requires x in s.queue && !x.superseded && GoneOver(s, x)
    ensures again == Apply(s, RetryItem(x.id, freshKey)) && InvIds(again) && InvAhead(again) && InvSent(again)
    ensures y in again.queue && y.id == x.id && y.userId == x.userId && y.status == Pending && GoneOver(again, y)
  {
    var retry := RetryItem(x.id, freshKey);
    again, y := Apply(s, retry), Retried(x, freshKey);
    IdsKept(s, retry);
    AheadKept(s, retry);
    SentKeptOn(s, retry);
    MovedInQueue(s, retry, x);
    StaysOver(s, retry, x);
  }

  /** A retried change can be sent over the newer one it was under. */
  lemma RetriedUndoes(s: State, x: Item, freshKey: string) returns (more: seq<Step>, t: State, done: Change)
    requires InvIds(s) && InvAhead(s) && InvSent(s) && Enabled(s, RetryItem(x.id, freshKey))
    requires x in s.queue && !x.superseded && x.userId != "" && GoneOver(s, x)
    ensures NoRetry(more) && Leads(s, [RetryItem(x.id, freshKey)] + more) == Some(t)
    ensures Enabled(t, Pick) && Picked(t).id == x.id && (x.id, done) in t.hist.over
    ensures !Apart(done, Picked(t).change) && !KeptRemoval(done, Picked(t).change)
  {
    var again, y := RetriedUnder(s, x, freshKey);
    var win, won, send;
    done, win, won := Wins(again, y);
    send, t := SendsIt(won, y);
    more := win + send;
    LeadsOne(s, RetryItem(x.id, freshKey));
    LeadsOn(again, win, send);
    LeadsOn(s, [RetryItem(x.id, freshKey)], more);
  }

  /** Unwatching is sent now while the refused watching before it is put back in line. */
  lemma RetriedUnderUnwatch(a: Item) returns (steps: seq<Step>)
    requires a == NewItem("a", TaskWatch("t"), "u", "k")
    ensures Run(steps).Some?
    ensures var s := Run(steps).value;
      && s.queue == [a.(idempotencyKey := "k2", firstKey := Some("k"))] && s.flush == None
      && s.live == map["l" := Live("u", TaskUnwatch("t"), {"a"})]
      && LiveRequest("l", s.live["l"]) in s.net
  {
    steps := UnwatchSent(a);
    RunSnoc(steps, RetryItem("a", "k2"));
    steps := steps + [RetryItem("a", "k2")];
  }

  lemma UnwatchSent(a: Item) returns (steps: seq<Step>)
    requires a == NewItem("a", TaskWatch("t"), "u", "k")
    ensures NoRetry(steps) && Run(steps).Some?
    ensures var s := Run(steps).value;
      && s.queue == [a.(attempts := 1, status := Failed, lastStatus := Some(404))] && s.flush == None
      && s.live == map["l" := Live("u", TaskUnwatch("t"), {"a"})]
      && LiveRequest("l", s.live["l"]) in s.net && s.hist.keys.Keys == {"k", "l"}
    ensures steps != [] && steps[|steps| - 1] == SendNow("u", TaskUnwatch("t"), "l")
  {
    var failed := a.(attempts := 1, status := Failed, lastStatus := Some(404));
    steps := RefusedInFlush(a);
    assert !CanPick("u", {"a"}, failed);
    assert NextPick([failed], "u", {"a"}) == 1;
    RunSnoc(steps, EndFlush);
    steps := steps + [EndFlush];
    var send := SendNow("u", TaskUnwatch("t"), "l");
    NothingWaits(failed, "u", TaskUnwatch("t"));
    RunSnoc(steps, send);
    steps := steps + [send];
    assert Ids([failed]) == {"a"} by { assert failed in [failed]; }
  }

  lemma NothingWaits(a: Item, user: string, c: Change)
    requires a.status == Failed
    ensures WaitingWrites([a], user, c) == []
  {
    assert [a][..0] == [];
  }

  /**
    * Without the guard a newer change is undone: the unwatching succeeds, and the next flush sends the
    * watching that was made before it.
    */
  lemma UndoneAfterRetry() returns (steps: seq<Step>)
    ensures Run(steps).Some? && Enabled(Run(steps).value, Pick)
    ensures var s := Run(steps).value;
      (Picked(s).id, TaskUnwatch("t")) in s.hist.over && !Apart(TaskUnwatch("t"), Picked(s).change)
  {
    var a := NewItem("a", TaskWatch("t"), "u", "k");
    steps := RetriedUnderUnwatch(a);
    var again := a.(idempotencyKey := "k2", firstKey := Some("k"));
    steps := UnwatchSucceeds(steps, again);
    RunSnoc(steps, StartFlush("u"));
    steps := steps + [StartFlush("u")];
    assert CanPick("u", {}, again);
    assert Touches(TaskUnwatch("t"), WatchCell("t")) && Touches(again.change, WatchCell("t"));
  }

  lemma UnwatchSucceeds(steps: seq<Step>, a: Item) returns (more: seq<Step>)
    requires Run(steps).Some?
    requires a.id == "a" && a.change == TaskWatch("t") && a.userId == "u" && a.status == Pending
    requires var s := Run(steps).value;
      && s.queue == [a] && s.flush == None
      && s.live == map["l" := Live("u", TaskUnwatch("t"), {"a"})]
      && LiveRequest("l", s.live["l"]) in s.net
    ensures Run(more).Some?
    ensures var s := Run(more).value; s.queue == [a] && s.flush == None && ("a", TaskUnwatch("t")) in s.hist.over
  {
    var r := LiveRequest("l", Run(steps).value.live["l"]);
    RunSnoc(steps, Accept(r));
    more := steps + [Accept(r)];
    var s := Run(more).value;
    assert s.queue == [a] && s.flush == None && s.live == Run(steps).value.live;
    UnwatchAnswered(s, a);
    RunSnoc(more, SentOk("l", None));
    more := more + [SentOk("l", None)];
  }

  lemma UnwatchAnswered(s: State, a: Item)
    requires a.id == "a" && a.change == TaskWatch("t") && a.userId == "u" && a.status == Pending
    requires s.queue == [a] && s.flush == None && s.live == map["l" := Live("u", TaskUnwatch("t"), {"a"})]
    requires (LiveRequest("l", s.live["l"]), None) in s.server.replies
    ensures var t := Apply(s, SentOk("l", None));
      t.queue == [a] && t.flush == None && ("a", TaskUnwatch("t")) in t.hist.over
  {
    assert Supersede("u", TaskUnwatch("t"), a) == a;
    assert a in s.queue && MustFollow(TaskUnwatch("t"), a.change);
  }
}
