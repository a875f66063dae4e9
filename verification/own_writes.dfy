/** This device's own edits and moves of a task never conflict with each other. */
module OwnWrites {
  import opened Lists
  import opened Changes
  import opened QueueWrites
  import opened Protocol
  import opened StepItems
  import Versions

  /** An edit or move of task `t`. */
  predicate OnTask(c: Change, t: string) {
    IsVersioned(c) && c.id == t && t != ""
  }

  /** The edit or move of `t` being replayed. */
  predicate Flying(s: State, t: string) {
    CurrentItem(s).Some? && OnTask(CurrentItem(s).value.change, t)
  }

  ghost predicate HasReply(s: State, r: Request) {
    exists made :: (r, made) in s.server.replies
  }

  /** The server has made the version of the change being replayed; the queue doesn't know yet. */
  ghost predicate Landed(s: State, t: string) {
    Flying(s, t) && HasReply(s, RequestOf(CurrentItem(s).value))
  }

  /** Versions an own edit can be made against: the task's own, or the one before while an own write is landing. */
  ghost predicate Expects(s: State, t: string, c: Change) {
    c.TaskUpdate? && c.expectedVersion.Some? ==>
      c.expectedVersion.value == VersionOf(s, t) || (Landed(s, t) && c.expectedVersion.value == VersionOf(s, t) - 1)
  }

  predicate NoLive(s: State, t: string) {
    forall k :: k in s.live ==> !OnTask(s.live[k].change, t)
  }

  /** Every write of `t` being sent has its answer: none can make a version any more. */
  ghost predicate NoneComing(s: State, t: string) {
    forall k :: k in s.live && OnTask(s.live[k].change, t) ==> HasReply(s, LiveRequest(k, s.live[k]))
  }

  /** The request of the one write of `t` on its way, not answered yet. */
  ghost predicate OnItsWay(s: State, t: string, r: Request) {
    && !HasReply(s, r)
    && ((Flying(s, t) && r == RequestOf(CurrentItem(s).value)) || (exists k :: k in s.live && r == LiveRequest(k, s.live[k])))
  }

  /** An edit made from an older copy of the task, behind a waiting edit that expects a version. */
  predicate IsRaised(s: State, u: string, t: string, change: Change) {
    && change.TaskUpdate? && change.expectedVersion.Some? && change.expectedVersion.value <= VersionOf(s, t)
    && exists x :: x in s.queue && WaitsFor(u, change, x) && x.change.TaskUpdate? && x.change.expectedVersion.Some?
  }

  /**
    * What the law assumes, for task `t` and its one writer `u`: nobody else writes the task; its edits
    * are made one at a time, each from the newest copy this device holds, or from an older one behind an edit
    * that waits (it is raised to what that one expects); the server handles a request while
    * it is on its way and its answer arrives; a change in flight is not discarded; and a failed edit is
    * tried again only while it still expects the task's version, and no write of the task is on its way.
    */
  ghost predicate Calm(s: State, step: Step, u: string, t: string)
    requires Enabled(s, step)
  {
    match step
    case SendNow(user, change, _) => OnTask(change, t) ==> user == u && NoLive(s, t) && Expects(s, t, change)
    case QueueBehind(user, change, _, _) => OnTask(change, t) ==> user == u && (Expects(s, t, change) || IsRaised(s, u, t, change))
    case SentKept(key, _) => OnTask(s.live[key].change, t) ==> !HasReply(s, LiveRequest(key, s.live[key]))
    case SentRefused(key) => OnTask(s.live[key].change, t) ==> !HasReply(s, LiveRequest(key, s.live[key]))
    case TabClosed(key) => OnTask(s.live[key].change, t) ==> !HasReply(s, LiveRequest(key, s.live[key]))
    case ReplayFailed(_, _) => !Landed(s, t)
    case WorkerStopped => !Landed(s, t)
    case RetryItem(id, _) =>
      Holds(s.queue, id) && OnTask(s.queue[IndexOf(s.queue, id)].change, t) && !s.queue[IndexOf(s.queue, id)].superseded ==>
        NoneComing(s, t) && Expects(s, t, s.queue[IndexOf(s.queue, id)].change)
    case Discard(id) => Flying(s, t) ==> CurrentItem(s).value.id != id
    case Clear => !Flying(s, t)
    case Accept(r) => OnTask(r.change, t) ==> OnItsWay(s, t, r)
    case Conflict(r) => OnTask(r.change, t) ==> OnItsWay(s, t, r)
    case WriteElsewhere(task) => task != t
    case _ => true
  }

  ghost predicate CalmTrace(states: seq<State>, steps: seq<Step>, u: string, t: string) {
    IsTrace(states, steps) && forall n :: 0 <= n < |steps| ==> OneStep(states[n], steps[n], states[n + 1]) && Calm(states[n], steps[n], u, t)
  }

  // ---- The invariant ---------------------------------------------------------------------------------

  /** A queued edit or move of the task is the writer's own, and while it waits it expects the right version. */
  ghost predicate GoodItem(s: State, u: string, t: string, x: Item) {
    OnTask(x.change, t) ==>
      && x.userId == u
      && (x.status == Pending ==> Expects(s, t, x.change) && NoneComing(s, t))
  }

  /** The replayed edit or move is still queued as it was sent; its answer names the task's version. */
  ghost predicate GoodFlying(s: State, u: string, t: string) {
    Flying(s, t) ==>
      var item := CurrentItem(s).value;
      && item.userId == u
      && Holds(s.queue, item.id)
      && s.queue[IndexOf(s.queue, item.id)].change == item.change
      && s.queue[IndexOf(s.queue, item.id)].status == Pending
      && (forall made :: (RequestOf(item), made) in s.server.replies ==> made == Some(VersionOf(s, t)))
  }

  /** A live edit or move of the task is the only one, and expects its version until it lands. */
  ghost predicate GoodLive(s: State, u: string, t: string, k: string)
    requires k in s.live
  {
    OnTask(s.live[k].change, t) ==>
      && s.live[k].user == u
      && (forall l :: l in s.live && OnTask(s.live[l].change, t) ==> l == k)
      && k in s.hist.keys
      && (!HasReply(s, LiveRequest(k, s.live[k])) && ExpectedVersion(s.live[k].change).Some? ==>
            ExpectedVersion(s.live[k].change).value == VersionOf(s, t))
  }

  /** An answered request is the one in flight, or of a change that is neither queued nor being sent any more. */
  predicate GoodReply(s: State, t: string, r: Request) {
    OnTask(r.change, t) ==>
      match r.itemId
      case Some(id) => id in s.hist.enqueued && (Holds(s.queue, id) ==> Flying(s, t) && r == RequestOf(CurrentItem(s).value))
      case None => r.key in s.hist.keys
  }

  ghost predicate InvCalm(s: State, u: string, t: string) {
    && (forall x :: x in s.queue ==> GoodItem(s, u, t, x))
    && GoodFlying(s, u, t)
    && (forall k :: k in s.live ==> GoodLive(s, u, t, k))
    && (forall r, made :: (r, made) in s.server.replies ==> GoodReply(s, t, r))
    && (forall r :: r in s.server.conflicts ==> !OnTask(r.change, t))
  }

  // ---- What the law gives ----------------------------------------------------------------------------

  /** A write of the task on its way expects exactly the task's version. */
  lemma OnItsWayIsCurrent(s: State, u: string, t: string, r: Request)
    requires InvCalm(s, u, t) && OnTask(r.change, t) && OnItsWay(s, t, r)
    ensures !IsStale(s, r)
  {
    if Flying(s, t) && r == RequestOf(CurrentItem(s).value) {
      var item := CurrentItem(s).value;
      HoldsMember(s.queue, item.id);
      assert GoodItem(s, u, t, s.queue[IndexOf(s.queue, item.id)]);
    } else {
      var k :| k in s.live && r == LiveRequest(k, s.live[k]);
      assert GoodLive(s, u, t, k);
    }
  }

  // ---- Its parts, step by step -------------------------------------------------------------------------

  lemma VersionAfter(s: State, step: Step, t: string)
    requires Enabled(s, step)
    ensures VersionOf(Apply(s, step), t) ==
      if (step.Accept? && IsVersioned(step.request.change) && step.request.change.id == t) || (step.WriteElsewhere? && step.task == t)
      then VersionOf(s, t) + 1 else VersionOf(s, t)
  {
  }

  /** The answers after a step: one more for an accepted request. */
  lemma RepliesAfter(s: State, step: Step, r: Request, made: Option<int>)
    requires Enabled(s, step)
    ensures (r, made) in s.server.replies ==> (r, made) in ServerAfter(s, step).replies
    ensures (r, made) in ServerAfter(s, step).replies && (r, made) !in s.server.replies ==>
      step == Accept(r) && (IsVersioned(r.change) ==> made == Some(VersionOf(Apply(s, step), r.change.id)))
    ensures step.Accept? && IsVersioned(step.request.change) ==>
      (step.request, Some(VersionOf(Apply(s, step), step.request.change.id))) in ServerAfter(s, step).replies
  {
  }

  lemma MovedOnTask(s: State, step: Step, x: Item, t: string)
    requires Enabled(s, step)
    ensures OnTask(Moved(s, step, x).change, t) == OnTask(x.change, t)
  {
    MovedKin(s, step, x);
    if OnTask(x.change, t) {
      SameSubject(x.change, Moved(s, step, x).change, t);
    } else if OnTask(Moved(s, step, x).change, t) {
      SameSubject(Moved(s, step, x).change, x.change, t);
    }
  }

  lemma SameSubject(a: Change, b: Change, t: string)
    requires KinChange(a, b) && OnTask(a, t)
    ensures OnTask(b, t)
  {
  }

  /** Edits and moves of one task follow each other, and nothing else does. */
  lemma FollowsOnTask(a: Change, b: Change, t: string)
    requires OnTask(a, t)
    ensures MustFollow(a, b) <==> OnTask(b, t)
  {
  }

  /** While a write of the task is being replayed, none being sent awaits its answer. */
  lemma FlyingAlone(s: State, u: string, t: string)
    requires InvCalm(s, u, t) && Flying(s, t)
    ensures NoneComing(s, t)
  {
    var id := CurrentItem(s).value.id;
    HoldsMember(s.queue, id);
    assert GoodItem(s, u, t, s.queue[IndexOf(s.queue, id)]);
  }

  /** No change of the task is sent at once while one waits, or while one is being replayed. */
  lemma SendNowAlone(s: State, step: Step, u: string, t: string)
    requires InvCalm(s, u, t) && Enabled(s, step) && step.SendNow? && OnTask(step.change, t) && step.user == u
    ensures forall x :: x in s.queue && OnTask(x.change, t) ==> x.status == Failed
    ensures !Flying(s, t)
  {
    forall x | x in s.queue && OnTask(x.change, t) ensures x.status == Failed {
      FollowsOnTask(step.change, x.change, t);
      assert GoodItem(s, u, t, x);
      FilterMembers(s.queue, (i: Item) => WaitsFor(u, step.change, i));
      assert WaitingWrites(s.queue, u, step.change) == Filter(s.queue, (i: Item) => WaitsFor(u, step.change, i));
      assert !WaitsFor(u, step.change, x);
    }
    if Flying(s, t) {
      HoldsMember(s.queue, CurrentItem(s).value.id);
    }
  }

  /** Who is being replayed after a step that isn't a Pick: the same change, or none. */
  lemma FlyingAfter(s: State, step: Step, t: string)
    requires Enabled(s, step) && !step.Pick?
    ensures Flying(Apply(s, step), t) ==> Flying(s, t) && FlushAfter(s, step) == s.flush && CurrentItem(Apply(s, step)) == CurrentItem(s)
    ensures Flying(s, t) && !Flying(Apply(s, step), t) ==> step.ReplayOk? || step.ReplayHeld? || step.ReplayFailed? || step.WorkerStopped?
  {
    CurrentAfter(s, step);
  }

  /** An expectation holds on, over every step but the landing and the settling of a write of the task. */
  lemma ExpectsKept(s: State, step: Step, u: string, t: string, c: Change)
    requires Enabled(s, step) && Calm(s, step, u, t) && OnTask(c, t) && Expects(s, t, c)
    requires !(step.Accept? && OnTask(step.request.change, t))
    requires step.ReplayOk? || step.ReplayHeld? ==> !Flying(s, t)
    ensures Expects(Apply(s, step), t, c)
  {
    VersionAfter(s, step, t);
    if Landed(s, t) {
      FlyingAfter(s, step, t);
      var r := RequestOf(CurrentItem(s).value);
      var made :| (r, made) in s.server.replies;
      RepliesAfter(s, step, r, made);
    }
  }

  /** When a replayed write lands, what expected the task's version expects the one before it. */
  lemma ExpectsLanding(s: State, step: Step, u: string, t: string, c: Change)
    requires InvCalm(s, u, t) && Enabled(s, step) && Calm(s, step, u, t) && OnTask(c, t) && Expects(s, t, c) && NoneComing(s, t)
    requires step.Accept? && OnTask(step.request.change, t)
    ensures Expects(Apply(s, step), t, c)
  {
    VersionAfter(s, step, t);
    RepliesAfter(s, step, step.request, None);
  }

  /** Once the landed write is settled, every waiting edit expects the version it made. */
  lemma ExpectsSettled(s: State, step: Step, u: string, t: string, x: Item)
    requires InvCalm(s, u, t) && Enabled(s, step) && step.ReplayOk? && Flying(s, t)
    requires x in s.queue && OnTask(x.change, t) && Expects(s, t, x.change)
    ensures Expects(Apply(s, step), t, Moved(s, step, x).change)
  {
    assert GoodItem(s, u, t, x);
    var item := CurrentItem(s).value;
    VersionAfter(s, step, t);
    Versions.UpdateMoved(s, step, x);
    assert step.made == Some(VersionOf(s, t)) && Landed(s, t);
    if x.change.TaskUpdate? {
      RebasedExpects(item.change, x, t, VersionOf(s, t));
      assert Moved(s, step, x).change == RebaseQueuedVersion(item.change, step.made, x).change;
    }
  }

  /** Rebased on the version a write made, an edit that expected that version or the one before expects that version. */
  lemma RebasedExpects(done: Change, x: Item, t: string, version: int)
    requires OnTask(done, t) && OnTask(x.change, t) && x.change.TaskUpdate?
    requires x.change.expectedVersion.Some? ==> x.change.expectedVersion.value in {version, version - 1}
    ensures var c := RebaseQueuedVersion(done, Some(version), x).change;
      c.TaskUpdate? && (c.expectedVersion.Some? ==> c.expectedVersion.value == version)
  {
  }

  lemma OtherReplay(s: State, step: Step, t: string, x: Item)
    requires Enabled(s, step) && OnTask(x.change, t)
    requires step.ReplayOk? || step.ReplayHeld? ==> !Flying(s, t)
    ensures x.change.TaskUpdate? ==> Moved(s, step, x).change == x.change
  {
    Versions.UpdateMoved(s, step, x);
  }

  // ---- The invariant is kept ------------------------------------------------------------------------------

  /** A waiting item of the task goes on expecting the right version. */
  lemma WaitingItemKept(s: State, step: Step, u: string, t: string, x: Item)
    requires InvIds(s) && InvCurrent(s) && InvCalm(s, u, t) && Enabled(s, step) && Calm(s, step, u, t)
    requires x in s.queue && OnTask(x.change, t) && Expects(s, t, x.change) && NoneComing(s, t)
    ensures Expects(Apply(s, step), t, Moved(s, step, x).change)
  {
    MovedOnTask(s, step, x, t);
    if step.Accept? && OnTask(step.request.change, t) {
      ExpectsLanding(s, step, u, t, x.change);
    } else if step.ReplayOk? && Flying(s, t) {
      ExpectsSettled(s, step, u, t, x);
    } else {
      assert step.ReplayHeld? ==> !Flying(s, t);
      OtherReplay(s, step, t, x);
      ExpectsKept(s, step, u, t, x.change);
      MovedKin(s, step, x);
    }
  }

  lemma AnswersStay(s: State, step: Step, r: Request)
    requires Enabled(s, step) && HasReply(s, r)
    ensures HasReply(Apply(s, step), r)
  {
    var made :| (r, made) in s.server.replies;
    RepliesAfter(s, step, r, made);
  }

  lemma NoneComingKept(s: State, step: Step, u: string, t: string)
    requires Enabled(s, step) && NoneComing(s, t) && !(step.SendNow? && OnTask(step.change, t))
    ensures NoneComing(Apply(s, step), t)
  {
    forall k | k in LiveAfter(s, step) && OnTask(LiveAfter(s, step)[k].change, t) ensures HasReply(Apply(s, step), LiveRequest(k, LiveAfter(s, step)[k])) {
      assert k in s.live && s.live[k] == LiveAfter(s, step)[k];
      AnswersStay(s, step, LiveRequest(k, s.live[k]));
    }
  }

  lemma ItemKept(s: State, step: Step, u: string, t: string, x: Item)
    requires InvIds(s) && InvCurrent(s) && InvCalm(s, u, t) && Enabled(s, step) && Calm(s, step, u, t) && x in s.queue
    ensures GoodItem(Apply(s, step), u, t, Moved(s, step, x))
  {
    MovedId(s, step, x);
    MovedOnTask(s, step, x, t);
    assert GoodItem(s, u, t, x);
    var y := Moved(s, step, x);
    if OnTask(x.change, t) && y.status == Pending {
      WaitedBefore(s, step, u, t, x);
      if step.SendNow? && OnTask(step.change, t) { SendNowAlone(s, step, u, t); }
      NoneComingKept(s, step, u, t);
      WaitingItemKept(s, step, u, t, x);
    }
  }

  /** A waiting item waited before, or a calm Retry put it back. */
  lemma WaitedBefore(s: State, step: Step, u: string, t: string, x: Item)
    requires InvIds(s) && InvCurrent(s) && InvCalm(s, u, t) && Enabled(s, step) && Calm(s, step, u, t) && x in s.queue && OnTask(x.change, t)
    requires Moved(s, step, x).status == Pending
    ensures Expects(s, t, x.change) && NoneComing(s, t)
    ensures x.status == Pending || step.RetryItem?
  {
    MemberHolds(s.queue, x);
    assert GoodItem(s, u, t, x);
    match step
    case SentOk(key, _) => SupersedeShape(s.live[key].user, s.live[key].change, x);
    case ReplayOk(made) => SettledShape(s.queue, CurrentItem(s).value, made, x);
    case ReplayHeld(made) => SettledShape(s.queue, CurrentItem(s).value, made, x);
    case ReplayFailed(_, _) => FailedTryOfWaiting(s, step, u, t, x);
    case _ =>
  }

  lemma FailedTryOfWaiting(s: State, step: Step, u: string, t: string, x: Item)
    requires InvIds(s) && InvCalm(s, u, t) && Enabled(s, step) && step.ReplayFailed? && x in s.queue && OnTask(x.change, t)
    requires Moved(s, step, x).status == Pending && InvCurrent(s)
    ensures x.status == Pending
  {
    MemberHolds(s.queue, x);
    if x.id == CurrentItem(s).value.id {
      assert Kin(x, CurrentItem(s).value);
      SameSubject(x.change, CurrentItem(s).value.change, t);
    }
  }

  /** A change made behind the task's waiting ones expects what one of them, or its own copy, does. */
  lemma BehindExpects(s: State, step: Step, u: string, t: string)
    requires InvCalm(s, u, t) && Enabled(s, step) && Calm(s, step, u, t) && step.QueueBehind? && OnTask(step.change, t)
    ensures Expects(s, t, Added(s, step).value.change) && NoneComing(s, t)
  {
    var waiting := WaitingWrites(s.queue, u, step.change);
    FilterMembers(s.queue, (i: Item) => WaitsFor(u, step.change, i));
    assert waiting == Filter(s.queue, (i: Item) => WaitsFor(u, step.change, i));
    forall w | w in waiting ensures Expects(s, t, w.change) && NoneComing(s, t) {
      FollowsOnTask(step.change, w.change, t);
      assert GoodItem(s, u, t, w);
    }
    assert waiting[0] in waiting;
    if step.change.TaskUpdate? {
      Versions.BehindIsNewest(waiting, step.change);
    }
  }

  lemma AddedOnTask(s: State, step: Step, t: string)
    requires Enabled(s, step) && Added(s, step).Some?
    ensures OnTask(Added(s, step).value.change, t) == OnTask(if step.QueueBehind? then step.change else s.live[step.key].change, t)
  {
  }

  lemma AddedKept(s: State, step: Step, u: string, t: string)
    requires InvCalm(s, u, t) && Enabled(s, step) && Calm(s, step, u, t) && Added(s, step).Some?
    ensures GoodItem(Apply(s, step), u, t, Added(s, step).value)
  {
    var y := Added(s, step).value;
    AddedOnTask(s, step, t);
    if OnTask(y.change, t) {
      if step.QueueBehind? {
        BehindExpects(s, step, u, t);
        NoneComingKept(s, step, u, t);
      } else {
        assert GoodLive(s, u, t, step.key);
        assert Expects(s, t, y.change);
      }
      ExpectsKept(s, step, u, t, y.change);
    }
  }

  lemma ItemsKept(s: State, step: Step, u: string, t: string)
    requires InvIds(s) && InvCurrent(s) && InvCalm(s, u, t) && Enabled(s, step) && Calm(s, step, u, t)
    ensures forall y :: y in QueueAfter(s, step) ==> GoodItem(Apply(s, step), u, t, y)
  {
    forall y | y in QueueAfter(s, step) ensures GoodItem(Apply(s, step), u, t, y) {
      if Added(s, step) == Some(y) {
        AddedKept(s, step, u, t);
      } else {
        var x := CameFrom(s, step, y);
        ItemKept(s, step, u, t, x);
      }
    }
  }

  /** The change of a waiting item is as it was, unless a success write moves it on. */
  lemma WaitingUnchanged(s: State, step: Step, x: Item)
    requires Enabled(s, step) && x.status == Pending && !step.ReplayOk? && !step.ReplayHeld? && !step.ReplayFailed?
    ensures Moved(s, step, x).change == x.change && Moved(s, step, x).status == Pending
  {
    match step
    case SentOk(key, _) => SupersedeShape(s.live[key].user, s.live[key].change, x);
    case _ =>
  }

  /** A queued change that isn't being replayed has no answer. */
  lemma NoReplyYet(s: State, u: string, t: string, y: Item)
    requires InvCalm(s, u, t) && y in s.queue && (OnTask(y.change, t) ==> !Flying(s, t))
    ensures OnTask(y.change, t) ==> !HasReply(s, RequestOf(y))
  {
    MemberHolds(s.queue, y);
    var r := RequestOf(y);
    assert GoodReply(s, t, r) ==> !OnTask(y.change, t) || Flying(s, t);
  }

  lemma PickedGood(s: State, u: string, t: string)
    requires InvIds(s) && InvCalm(s, u, t) && Enabled(s, Pick)
    ensures GoodFlying(Apply(s, Pick), u, t)
    ensures Flying(Apply(s, Pick), t) ==> !Landed(Apply(s, Pick), t)
  {
    var at := NextPick(s.queue, s.flush.value.user, s.flush.value.tried);
    var y := s.queue[at];
    IndexAt(s.queue, at);
    assert GoodItem(s, u, t, y);
    NoReplyYet(s, u, t, y);
  }

  lemma FlyingItemKept(s: State, step: Step, u: string, t: string)
    requires InvIds(s) && InvCalm(s, u, t) && Enabled(s, step) && Calm(s, step, u, t)
    requires !step.Pick? && Flying(s, t) && FlushAfter(s, step) == s.flush
    ensures var item := CurrentItem(s).value;
      Holds(QueueAfter(s, step), item.id)
      && QueueAfter(s, step)[IndexOf(QueueAfter(s, step), item.id)].change == item.change
      && QueueAfter(s, step)[IndexOf(QueueAfter(s, step), item.id)].status == Pending
  {
    var id := CurrentItem(s).value.id;
    HoldsMember(s.queue, id);
    var x := s.queue[IndexOf(s.queue, id)];
    StillFlying(s, step, t);
    WaitingUnchanged(s, step, x);
    MovedId(s, step, x);
    EveryItem(s, step);
    var y := Moving(s, step)(x);
    MemberHolds(QueueAfter(s, step), y);
  }

  lemma StillFlying(s: State, step: Step, t: string)
    requires Enabled(s, step) && Flying(s, t) && FlushAfter(s, step) == s.flush
    ensures !step.ReplayOk? && !step.ReplayHeld? && !step.ReplayFailed? && !step.WorkerStopped?
  {
  }

  lemma FlyingRepliesKept(s: State, step: Step, u: string, t: string, made: Option<int>)
    requires InvCalm(s, u, t) && Enabled(s, step) && Calm(s, step, u, t) && Flying(s, t)
    requires (RequestOf(CurrentItem(s).value), made) in ServerAfter(s, step).replies
    ensures made == Some(VersionOf(Apply(s, step), t))
  {
    var r := RequestOf(CurrentItem(s).value);
    RepliesAfter(s, step, r, made);
    VersionAfter(s, step, t);
    FlyingAlone(s, u, t);
    if step.Accept? && OnTask(step.request.change, t) {
      assert OnItsWay(s, t, step.request);
    }
  }

  lemma FlyingKept(s: State, step: Step, u: string, t: string)
    requires InvIds(s) && InvCalm(s, u, t) && Enabled(s, step) && Calm(s, step, u, t)
    ensures GoodFlying(Apply(s, step), u, t)
  {
    if step.Pick? {
      PickedGood(s, u, t);
    } else if Flying(Apply(s, step), t) {
      FlyingAfter(s, step, t);
      FlyingItemKept(s, step, u, t);
      forall made | (RequestOf(CurrentItem(s).value), made) in ServerAfter(s, step).replies ensures made == Some(VersionOf(Apply(s, step), t)) {
        FlyingRepliesKept(s, step, u, t, made);
      }
    }
  }

  lemma SentNowGood(s: State, step: Step, u: string, t: string)
    requires InvCalm(s, u, t) && Enabled(s, step) && Calm(s, step, u, t) && step.SendNow?
    ensures GoodLive(Apply(s, step), u, t, step.key)
  {
    if OnTask(step.change, t) {
      SendNowAlone(s, step, u, t);
      VersionAfter(s, step, t);
    }
  }

  lemma LiveKept(s: State, step: Step, u: string, t: string, k: string)
    requires InvCalm(s, u, t) && Enabled(s, step) && Calm(s, step, u, t) && k in LiveAfter(s, step)
    ensures GoodLive(Apply(s, step), u, t, k)
  {
    if step.SendNow? && step.key == k {
      SentNowGood(s, step, u, t);
    } else if OnTask(s.live[k].change, t) {
      assert GoodLive(s, u, t, k);
      OldLiveKept(s, step, u, t, k);
    }
  }

  lemma OldLiveKept(s: State, step: Step, u: string, t: string, k: string)
    requires InvCalm(s, u, t) && Enabled(s, step) && Calm(s, step, u, t)
    requires k in s.live && k in LiveAfter(s, step) && OnTask(s.live[k].change, t) && !(step.SendNow? && step.key == k)
    ensures GoodLive(Apply(s, step), u, t, k)
  {
    assert GoodLive(s, u, t, k);
    var r := LiveRequest(k, s.live[k]);
    VersionAfter(s, step, t);
    assert LiveAfter(s, step)[k] == s.live[k];
    if HasReply(s, r) {
      AnswersStay(s, step, r);
    } else if step.Accept? && OnTask(step.request.change, t) {
      LandsAlone(s, step, u, t, k);
    }
    KeysStay(s, step, k);
  }

  lemma KeysStay(s: State, step: Step, k: string)
    requires Enabled(s, step) && k in s.hist.keys
    ensures k in HistoryAfter(s, step).keys
  {
  }

  /** With a live write of the task, only that one can land. */
  lemma LandsAlone(s: State, step: Step, u: string, t: string, k: string)
    requires InvCalm(s, u, t) && Enabled(s, step) && Calm(s, step, u, t) && step.Accept? && OnTask(step.request.change, t)
    requires k in s.live && OnTask(s.live[k].change, t) && !HasReply(s, LiveRequest(k, s.live[k]))
    ensures step.request == LiveRequest(k, s.live[k])
    ensures HasReply(Apply(s, step), step.request)
  {
    assert GoodLive(s, u, t, k);
    if Flying(s, t) { FlyingAlone(s, u, t); }
    RepliesAfter(s, step, step.request, None);
  }

  lemma ReplyKept(s: State, step: Step, u: string, t: string, r: Request, made: Option<int>)
    requires InvIds(s) && InvCurrent(s) && InvCalm(s, u, t) && Enabled(s, step) && Calm(s, step, u, t)
    requires (r, made) in ServerAfter(s, step).replies
    ensures GoodReply(Apply(s, step), t, r)
  {
    EnqueuedGrows(s, step);
    RepliesAfter(s, step, r, made);
    if OnTask(r.change, t) {
      if (r, made) in s.server.replies {
        assert GoodReply(s, t, r);
        OldReplyKept(s, step, u, t, r, made);
      } else {
        NewReplyGood(s, step, u, t, r);
      }
    }
  }

  lemma NewReplyGood(s: State, step: Step, u: string, t: string, r: Request)
    requires InvCurrent(s) && InvCalm(s, u, t) && Enabled(s, step) && Calm(s, step, u, t) && step == Accept(r) && OnTask(r.change, t)
    ensures GoodReply(Apply(s, step), t, r)
  {
    if !(Flying(s, t) && r == RequestOf(CurrentItem(s).value)) {
      var k :| k in s.live && r == LiveRequest(k, s.live[k]);
      assert GoodLive(s, u, t, k);
    }
  }

  lemma OldReplyKept(s: State, step: Step, u: string, t: string, r: Request, made: Option<int>)
    requires InvIds(s) && InvCurrent(s) && InvCalm(s, u, t) && Enabled(s, step) && Calm(s, step, u, t)
    requires (r, made) in s.server.replies && OnTask(r.change, t) && GoodReply(s, t, r)
    ensures GoodReply(Apply(s, step), t, r)
  {
    EnqueuedGrows(s, step);
    match r.itemId
    case None => KeysStay(s, step, r.key);
    case Some(id) =>
      if Holds(QueueAfter(s, step), id) {
        HeldBefore(s, step, id);
        assert Landed(s, t);
        LandedFlies(s, step, u, t);
      }
  }

  lemma HeldBefore(s: State, step: Step, id: string)
    requires InvIds(s) && Enabled(s, step) && id in s.hist.enqueued && Holds(QueueAfter(s, step), id)
    ensures Holds(s.queue, id) && !Takes(s, step, id)
  {
    HoldsMember(QueueAfter(s, step), id);
    var y := QueueAfter(s, step)[IndexOf(QueueAfter(s, step), id)];
    if Added(s, step).Some? { assert Added(s, step).value.id !in s.hist.enqueued; }
    var x := CameFrom(s, step, y);
    MemberHolds(s.queue, x);
  }

  /** A landed write flies on until its success write. */
  lemma LandedFlies(s: State, step: Step, u: string, t: string)
    requires Enabled(s, step) && Calm(s, step, u, t) && Landed(s, t) && !Takes(s, step, CurrentItem(s).value.id)
    ensures CurrentItem(Apply(s, step)) == CurrentItem(s)
  {
  }

  lemma ConflictsKept(s: State, step: Step, u: string, t: string)
    requires InvCalm(s, u, t) && Enabled(s, step) && Calm(s, step, u, t)
    ensures forall r :: r in ServerAfter(s, step).conflicts ==> !OnTask(r.change, t)
  {
    if step.Conflict? && OnTask(step.request.change, t) {
      OnItsWayIsCurrent(s, u, t, step.request);
    }
  }

  lemma CalmKept(s: State, step: Step, u: string, t: string)
    requires InvIds(s) && InvCurrent(s) && InvCalm(s, u, t) && Enabled(s, step) && Calm(s, step, u, t)
    ensures InvCalm(Apply(s, step), u, t)
  {
    ItemsKept(s, step, u, t);
    FlyingKept(s, step, u, t);
    forall k | k in LiveAfter(s, step) ensures GoodLive(Apply(s, step), u, t, k) {
      LiveKept(s, step, u, t, k);
    }
    forall r, made | (r, made) in ServerAfter(s, step).replies ensures GoodReply(Apply(s, step), t, r) {
      ReplyKept(s, step, u, t, r, made);
    }
    ConflictsKept(s, step, u, t);
  }

  lemma {:induction false} CalmInvariant(states: seq<State>, steps: seq<Step>, n: nat, u: string, t: string)
    requires CalmTrace(states, steps, u, t) && n <= |steps|
    ensures InvIds(states[n]) && InvCurrent(states[n]) && InvCalm(states[n], u, t)
  {
    if n > 0 {
      var s, last := states[n - 1], steps[n - 1];
      CalmInvariant(states, steps, n - 1, u, t);
      assert OneStep(s, last, states[n]);
      IdsKept(s, last);
      CurrentKept(s, last);
      CalmKept(s, last, u, t);
    }
  }

  /**
    * Own writes never conflict: in a calm run the server never refuses an edit of the task for its
    * version; the one write on its way expects exactly the task's version; and every waiting edit expects
    * that version, or the one before it while an applied write awaits its queue write.
    */
  lemma OwnWritesNeverConflict(states: seq<State>, steps: seq<Step>, n: nat, u: string, t: string)
    requires CalmTrace(states, steps, u, t) && n <= |steps|
    ensures var s := states[n];
      && (forall r :: r in s.server.conflicts ==> !OnTask(r.change, t))
      && (forall r :: r in s.net && OnTask(r.change, t) && OnItsWay(s, t, r) ==> Enabled(s, Accept(r)))
      && (forall x :: x in s.queue && OnTask(x.change, t) && x.status == Pending ==> Expects(s, t, x.change))
  {
    CalmInvariant(states, steps, n, u, t);
    var s := states[n];
    forall r | r in s.net && OnTask(r.change, t) && OnItsWay(s, t, r) ensures Enabled(s, Accept(r)) {
      OnItsWayIsCurrent(s, u, t, r);
    }
    forall x | x in s.queue && OnTask(x.change, t) && x.status == Pending ensures Expects(s, t, x.change) {
      assert GoodItem(s, u, t, x);
    }
  }

  // ---- Draining ---------------------------------------------------------------------------------------------

  /** The replay of a picked edit or move of the task: it is accepted, made the next version, and leaves the queue. */
  lemma PickedLands(s: State, u: string, t: string) returns (landed: State)
    requires InvIds(s) && InvCurrent(s) && InvCalm(s, u, t) && Enabled(s, Pick) && OnTask(s.queue[NextPick(s.queue, s.flush.value.user, s.flush.value.tried)].change, t)
    ensures var y, sent := s.queue[NextPick(s.queue, s.flush.value.user, s.flush.value.tried)], Apply(s, Pick);
      && Enabled(sent, Accept(RequestOf(y))) && landed == Apply(sent, Accept(RequestOf(y)))
      && InvIds(landed) && InvCurrent(landed) && InvCalm(landed, u, t)
      && CurrentItem(landed) == Some(y) && landed.queue == s.queue
      && VersionOf(landed, t) == VersionOf(s, t) + 1
      && Enabled(landed, ReplayOk(Some(VersionOf(landed, t))))
  {
    var y, sent := s.queue[NextPick(s.queue, s.flush.value.user, s.flush.value.tried)], Apply(s, Pick);
    IdsKept(s, Pick);
    CurrentKept(s, Pick);
    CalmKept(s, Pick, u, t);
    PickedGood(s, u, t);
    VersionAfter(s, Pick, t);
    landed := FlyingLands(sent, u, t);
  }

  lemma FlyingLands(sent: State, u: string, t: string) returns (landed: State)
    requires InvIds(sent) && InvCurrent(sent) && InvCalm(sent, u, t) && Flying(sent, t) && !Landed(sent, t)
    requires RequestOf(CurrentItem(sent).value) in sent.net
    ensures var r := RequestOf(CurrentItem(sent).value);
      && Enabled(sent, Accept(r)) && landed == Apply(sent, Accept(r))
      && InvIds(landed) && InvCurrent(landed) && InvCalm(landed, u, t)
      && landed.flush == sent.flush && landed.queue == sent.queue
      && VersionOf(landed, t) == VersionOf(sent, t) + 1
      && Enabled(landed, ReplayOk(Some(VersionOf(landed, t))))
  {
    var r := RequestOf(CurrentItem(sent).value);
    assert OnItsWay(sent, t, r);
    OnItsWayIsCurrent(sent, u, t, r);
    var step := Accept(r);
    IdsKept(sent, step);
    CurrentKept(sent, step);
    CalmKept(sent, step, u, t);
    VersionAfter(sent, step, t);
    RepliesAfter(sent, step, r, None);
    landed := Apply(sent, step);
  }
}
