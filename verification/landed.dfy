/**
  * An older change that is sent after a newer one of the same thing has landed: the server took the newer
  * one, and the client has not written its success.
  */
module LandedUndo {
  import opened Lists
  import opened Changes
  import opened QueueWrites
  import opened Protocol
  import opened StepItems
  import opened Ordering
  import opened Continuations
  import opened AtMostOnce
  import opened StaleUndo

  /** By the first `n` steps the server has taken this request. */
  ghost predicate HasLanded(steps: seq<Step>, n: nat, r: Request) {
    exists m :: 0 <= m < n <= |steps| && steps[m] == Accept(r)
  }

  /** Change `id` was queued when the request's change was made: sent at once, or queued itself. */
  ghost predicate MadeAfter(states: seq<State>, steps: seq<Step>, n: nat, r: Request, id: string)
    requires n < |states| && n <= |steps| <= |states|
  {
    match r.itemId
    case Some(item) => id in AheadOf(states[n], item)
    case None => exists m :: 0 <= m < n && steps[m].SendNow? && steps[m].key == r.key && id in Ids(states[m].queue)
  }

  /** The request's change is a newer one of the same thing than `x`. */
  ghost predicate IsNewer(states: seq<State>, steps: seq<Step>, n: nat, r: Request, x: Item)
    requires n < |states| && n <= |steps| <= |states|
  {
    r.user == x.userId && MustFollow(r.change, x.change) && MadeAfter(states, steps, n, r, x.id)
  }

  /** Somebody awaits the request's answer: a send, or a replay. */
  predicate IsAwaited(s: State, r: Request) {
    || (r.key in s.live && LiveRequest(r.key, s.live[r.key]) == r)
    || (CurrentItem(s).Some? && RequestOf(CurrentItem(s).value) == r)
  }

  /** Whoever awaits the answer stops to: its tab is closed, the change kept or refused, the replay failed, the worker stopped. */
  predicate GivesUpOn(s: State, step: Step, r: Request) {
    || ((step.TabClosed? || step.SentKept? || step.SentRefused?) && step.key == r.key && r.key in s.live && LiveRequest(r.key, s.live[r.key]) == r)
    || ((step.WorkerStopped? || step.ReplayFailed?) && CurrentItem(s).Some? && RequestOf(CurrentItem(s).value) == r)
  }

  ghost predicate GivenUp(states: seq<State>, steps: seq<Step>, n: nat, r: Request)
    requires n < |states| && n <= |steps| <= |states|
  {
    exists m :: 0 <= m < n && GivesUpOn(states[m], steps[m], r)
  }

  // ---- What was sent ---------------------------------------------------------------------------------------

  /** Every key and item a request names is known. */
  ghost predicate InvNet(s: State) {
    && (forall k :: k in s.live ==> k in s.hist.keys)
    && (forall r :: r in s.net ==> r.key in s.hist.keys && (r.itemId.Some? ==> r.itemId.value in s.hist.enqueued))
  }

  lemma NetKept(s: State, step: Step)
    requires InvIds(s) && InvNet(s) && Enabled(s, step) && InvOwners(Apply(s, step))
    ensures InvNet(Apply(s, step))
  {
    var t := Apply(s, step);
    EnqueuedGrows(s, step);
    forall k | k in t.live ensures k in t.hist.keys { assert Owned(t.hist.keys, k, k, t.live[k].change); }
    forall r | r in t.net ensures r.key in t.hist.keys && (r.itemId.Some? ==> r.itemId.value in t.hist.enqueued) {
      assert Owned(t.hist.keys, r.key, r.origin, r.change);
      if r !in s.net { NetAfterIs(s, step, r); }
    }
  }

  /** A send goes on with what was queued when it was made. */
  ghost predicate LiveSince(states: seq<State>, steps: seq<Step>, n: nat)
    requires n < |states| && n <= |steps| <= |states|
  {
    forall m :: 0 <= m < n && steps[m].SendNow? ==>
      && steps[m].key in states[n].hist.keys
      && (steps[m].key in states[n].live ==> states[n].live[steps[m].key].ahead == Ids(states[m].queue))
      && Ids(states[m].queue) <= states[n].hist.enqueued
  }

  lemma LiveSinceKept(states: seq<State>, steps: seq<Step>, n: nat)
    requires IsTrace(states, steps) && n < |steps| && LiveSince(states, steps, n) && InvIds(states[n])
    ensures LiveSince(states, steps, n + 1)
  {
    var s, step, t := states[n], steps[n], states[n + 1];
    assert OneStep(s, step, t);
    KeysGrow(s, step);
    KeysAfter(s, step);
    EnqueuedGrows(s, step);
    AheadAfter(s, step);
    forall m | 0 <= m < n + 1 && steps[m].SendNow?
      ensures steps[m].key in t.hist.keys
      ensures steps[m].key in t.live ==> t.live[steps[m].key].ahead == Ids(states[m].queue)
      ensures Ids(states[m].queue) <= t.hist.enqueued
    {
    }
  }

  // ---- Until the answer is given up ------------------------------------------------------------------------

  /** A newer change that was sent is on its way, or given up, or leaves nothing of `x` to undo it. */
  ghost predicate Resolved(states: seq<State>, steps: seq<Step>, n: nat, r: Request, x: Item)
    requires n < |states| && n <= |steps| <= |states|
  {
    IsAwaited(states[n], r) || GivenUp(states, steps, n, r) || Harmless(r.change, x)
  }

  ghost predicate InvSince(states: seq<State>, steps: seq<Step>, n: nat)
    requires n < |states| && n <= |steps| <= |states|
  {
    forall x, r :: x in states[n].queue && r in states[n].net && IsNewer(states, steps, n, r, x) ==> Resolved(states, steps, n, r, x)
  }

  /** Nothing was made behind an item that is only now appended. */
  lemma AddedIsLast(states: seq<State>, steps: seq<Step>, n: nat, r: Request)
    requires IsTrace(states, steps) && n < |steps| && LiveSince(states, steps, n) && InvIds(states[n]) && InvAhead(states[n])
    requires OneStep(states[n], steps[n], states[n + 1]) && Added(states[n], steps[n]).Some?
    ensures !MadeAfter(states, steps, n + 1, r, Added(states[n], steps[n]).value.id)
  {
    var s, step, t := states[n], steps[n], states[n + 1];
    var id := Added(s, step).value.id;
    assert id !in s.hist.enqueued;
    AheadAfter(s, step);
    assert Ids(s.queue) <= s.hist.enqueued;
    forall m | 0 <= m < n + 1 && steps[m].SendNow? ensures id !in Ids(states[m].queue) {
      assert m == n || Ids(states[m].queue) <= s.hist.enqueued;
    }
  }

  /** What a request that was sent was made behind doesn't change. */
  lemma MadeBefore(states: seq<State>, steps: seq<Step>, n: nat, r: Request, id: string)
    requires IsTrace(states, steps) && n < |steps| && InvNet(states[n]) && r in states[n].net
    requires MadeAfter(states, steps, n + 1, r, id)
    ensures MadeAfter(states, steps, n, r, id)
  {
    var s, step, t := states[n], steps[n], states[n + 1];
    assert OneStep(s, step, t);
    AheadAfter(s, step);
    if r.itemId.None? {
      var m :| 0 <= m < n + 1 && steps[m].SendNow? && steps[m].key == r.key && id in Ids(states[m].queue);
      assert m != n;
    }
  }

  lemma SentIsAwaited(s: State, step: Step, r: Request)
    requires Enabled(s, step) && r in NetAfter(s, step) && r !in s.net
    ensures IsAwaited(Apply(s, step), r)
  {
  }

  /** Whoever awaits an answer goes on to, gives up, or writes the success. */
  lemma StopsWaiting(s: State, step: Step, r: Request)
    requires Enabled(s, step) && (forall k :: k in s.live ==> k in s.hist.keys) && IsAwaited(s, r) && !IsAwaited(Apply(s, step), r)
    ensures GivesUpOn(s, step, r)
         || (step.SentOk? && step.key == r.key && LiveRequest(r.key, s.live[r.key]) == r)
         || ((step.ReplayOk? || step.ReplayHeld?) && RequestOf(CurrentItem(s).value) == r)
  {
  }

  /** The success write of a newer change goes over `x`. */
  lemma WritesOver(states: seq<State>, steps: seq<Step>, n: nat, r: Request, x: Item)
    requires IsTrace(states, steps) && n < |steps| && LiveSince(states, steps, n) && InvIds(states[n])
    requires IsNewer(states, steps, n, r, x) && Enabled(states[n], steps[n])
    requires var s, step := states[n], steps[n];
      || (step.SentOk? && step.key == r.key && LiveRequest(r.key, s.live[r.key]) == r)
      || ((step.ReplayOk? || step.ReplayHeld?) && RequestOf(CurrentItem(s).value) == r)
    ensures GoesOver(states[n], steps[n], r.change, x)
  {
  }

  lemma HarmlessStays(s: State, step: Step, x: Item, done: Change)
    requires InvIds(s) && Enabled(s, step) && x in s.queue && Harmless(done, x)
    ensures Harmless(done, Moved(s, step, x))
  {
    MovedKin(s, step, x);
    MovedTouches(s, step, x);
    MovedStanding(s, step, x);
    HarmlessMoved(done, x, Moved(s, step, x));
  }

  lemma GivenUpStays(states: seq<State>, steps: seq<Step>, n: nat, r: Request)
    requires IsTrace(states, steps) && n < |steps| && (GivenUp(states, steps, n, r) || GivesUpOn(states[n], steps[n], r))
    ensures GivenUp(states, steps, n + 1, r)
  {
    assert GivesUpOn(states[n], steps[n], r) ==> GivenUp(states, steps, n + 1, r);
  }

  lemma ItemSince(states: seq<State>, steps: seq<Step>, n: nat, r: Request, x: Item)
    requires UndisturbedTrace(states, steps) && n < |steps| && LiveSince(states, steps, n) && InvNet(states[n]) && InvSince(states, steps, n)
    requires OneStep(states[n], steps[n], states[n + 1]) && x in states[n].queue && !Takes(states[n], steps[n], x.id)
    requires r in states[n].net && IsNewer(states, steps, n, r, x)
    ensures Resolved(states, steps, n + 1, r, Moved(states[n], steps[n], x))
  {
    var s, step := states[n], steps[n];
    StaleInvariant(states, steps, n);
    assert Resolved(states, steps, n, r, x);
    if GivenUp(states, steps, n, r) || GivesUpOn(s, step, r) {
      GivenUpStays(states, steps, n, r);
    } else if Harmless(r.change, x) {
      HarmlessStays(s, step, x, r.change);
    } else if !IsAwaited(states[n + 1], r) {
      StopsWaiting(s, step, r);
      WritesOver(states, steps, n, r, x);
      NewlyOver(s, step, x, r.change);
    }
  }

  lemma SinceKept(states: seq<State>, steps: seq<Step>, n: nat)
    requires UndisturbedTrace(states, steps) && n < |steps| && LiveSince(states, steps, n) && InvNet(states[n]) && InvSince(states, steps, n)
    requires InvIds(states[n]) && InvAhead(states[n]) && OneStep(states[n], steps[n], states[n + 1])
    ensures InvSince(states, steps, n + 1)
  {
    var s, step, t := states[n], steps[n], states[n + 1];
    forall y, r | y in t.queue && r in t.net && IsNewer(states, steps, n + 1, r, y) ensures Resolved(states, steps, n + 1, r, y) {
      if r !in s.net {
        SentIsAwaited(s, step, r);
      } else if Added(s, step) == Some(y) {
        AddedIsLast(states, steps, n, r);
      } else {
        var x := CameFrom(s, step, y);
        MovedKin(s, step, x);
        MadeBefore(states, steps, n, r, x.id);
        KinFollowed(y.change, x.change, r.change);
        ItemSince(states, steps, n, r, x);
      }
    }
  }

  lemma {:induction false} SinceInvariant(states: seq<State>, steps: seq<Step>, n: nat)
    requires UndisturbedTrace(states, steps) && n <= |steps|
    ensures LiveSince(states, steps, n) && InvNet(states[n]) && InvSince(states, steps, n)
  {
    if n > 0 {
      SinceInvariant(states, steps, n - 1);
      StaleInvariant(states, steps, n - 1);
      assert OneStep(states[n - 1], steps[n - 1], states[n]);
      OwnersInvariant(states, steps, n);
      NetKept(states[n - 1], steps[n - 1]);
      LiveSinceKept(states, steps, n - 1);
      SinceKept(states, steps, n - 1);
    }
  }

  /** The server has taken the request, and if it is a POST answers its key with that. */
  predicate IsTaken(s: State, r: Request) {
    r in s.net && (IsPost(r.change) ==> r.key in s.server.answers && s.server.answers[r.key] == Done)
  }

  lemma TakenNext(s: State, step: Step, t: State, r: Request)
    requires OneStep(s, step, t) && (IsTaken(s, r) || step == Accept(r))
    ensures IsTaken(t, r)
  {
  }

  lemma LandedBefore(steps: seq<Step>, n: nat, r: Request)
    requires HasLanded(steps, n, r)
    ensures n > 0 && (steps[n - 1] == Accept(r) || HasLanded(steps, n - 1, r))
  {
  }

  /** What has landed is not refused, and was sent. */
  lemma {:induction false} LandedStays(states: seq<State>, steps: seq<Step>, n: nat, r: Request)
    requires IsTrace(states, steps) && n <= |steps| && HasLanded(steps, n, r)
    ensures IsTaken(states[n], r)
  {
    LandedBefore(steps, n, r);
    if steps[n - 1] != Accept(r) {
      LandedStays(states, steps, n - 1, r);
    }
    assert OneStep(states[n - 1], steps[n - 1], states[n]);
    TakenNext(states[n - 1], steps[n - 1], states[n], r);
  }

  /**
    * When a flush sends an older change that sets what a landed newer one has set, the newer one's answer never led
    * to its success write: it was given up, and nobody awaits it.
    */
  lemma UndoneOnlyIfGivenUp(states: seq<State>, steps: seq<Step>, n: nat, r: Request)
    requires UndisturbedTrace(states, steps) && n <= |steps| && Enabled(states[n], Pick)
    requires HasLanded(steps, n, r) && IsNewer(states, steps, n, r, Picked(states[n]))
    requires !Apart(r.change, Picked(states[n]).change) && !KeptRemoval(r.change, Picked(states[n]).change)
    ensures GivenUp(states, steps, n, r) && !IsAwaited(states[n], r) && (Picked(states[n]).id, r.change) !in states[n].hist.over
  {
    var s, x := states[n], Picked(states[n]);
    StaleInvariant(states, steps, n);
    SinceInvariant(states, steps, n);
    LandedStays(states, steps, n, r);
    assert x in s.queue;
    if (x.id, r.change) in s.hist.over { NoStaleUndo(states, steps, n, r.change); }
    if IsAwaited(s, r) { PickedIsUnder(states, steps, n, r); }
    assert Resolved(states, steps, n, r, x);
  }

  lemma PickedIsUnder(states: seq<State>, steps: seq<Step>, n: nat, r: Request)
    requires UndisturbedTrace(states, steps) && n <= |steps| && Enabled(states[n], Pick) && IsAwaited(states[n], r)
    requires LiveSince(states, steps, n) && !IsTurnedDown(states[n].server, r) && IsNewer(states, steps, n, r, Picked(states[n]))
    requires !Apart(r.change, Picked(states[n]).change) && !KeptRemoval(r.change, Picked(states[n]).change)
    ensures GoneOver(states[n], Picked(states[n]))
    ensures !InvOlder(states[n])
  {
    var s, x := states[n], Picked(states[n]);
    assert LiveOver(s, r.key, x);
    assert x in s.queue && !GoodOlder(s, x);
  }

  // ---- And whenever it is given up -------------------------------------------------------------------------

  /** The second run begins with the first. */
  ghost predicate GoesOn(states: seq<State>, steps: seq<Step>, more: seq<State>, after: seq<Step>) {
    |states| <= |more| && |steps| <= |after| && more[..|states|] == states && after[..|steps|] == steps
  }

  lemma OneStepMore(states: seq<State>, steps: seq<Step>, step: Step) returns (more: seq<State>, after: seq<Step>)
    requires UndisturbedTrace(states, steps) && Enabled(states[|steps|], step) && Undisturbed(states[|steps|], step)
    ensures UndisturbedTrace(more, after) && GoesOn(states, steps, more, after)
    ensures more[|after|] == Apply(states[|steps|], step)
    ensures |after| == |steps| + 1 && after[|steps|] == step
  {
    more, after := states + [Apply(states[|steps|], step)], steps + [step];
    forall n | 0 <= n < |after| ensures OneStep(more[n], after[n], more[n + 1]) && Undisturbed(more[n], after[n]) {
      if n < |steps| { assert OneStep(states[n], steps[n], states[n + 1]) && Undisturbed(states[n], steps[n]); }
    }
  }

  lemma MadeOn(states: seq<State>, steps: seq<Step>, more: seq<State>, after: seq<Step>, r: Request, id: string)
    requires UndisturbedTrace(states, steps) && UndisturbedTrace(more, after) && GoesOn(states, steps, more, after)
    requires more[|after|].hist.ahead == states[|steps|].hist.ahead && MadeAfter(states, steps, |steps|, r, id)
    ensures MadeAfter(more, after, |after|, r, id)
  {
    forall m | 0 <= m < |steps| ensures after[m] == steps[m] && more[m] == states[m] {
      assert after[..|steps|][m] == steps[m] && more[..|states|][m] == states[m];
    }
  }

  lemma LandedOn(steps: seq<Step>, after: seq<Step>, r: Request)
    requires |steps| <= |after| && after[..|steps|] == steps && HasLanded(steps, |steps|, r)
    ensures HasLanded(after, |after|, r)
  {
    forall m | 0 <= m < |steps| ensures after[m] == steps[m] { assert after[..|steps|][m] == steps[m]; }
  }

  /** Nothing is queued, and no key or id is used. */
  predicate SameLine(s: State, t: State) {
    t.queue == s.queue && t.hist.ahead == s.hist.ahead && t.hist.keys == s.hist.keys && t.hist.enqueued == s.hist.enqueued
  }

  /** Every tab that awaits an answer is closed. */
  lemma {:induction false} TabsClose(states: seq<State>, steps: seq<Step>) returns (more: seq<State>, after: seq<Step>)
    requires UndisturbedTrace(states, steps)
    ensures UndisturbedTrace(more, after) && GoesOn(states, steps, more, after)
    ensures SameLine(states[|steps|], more[|after|]) && more[|after|].live == map[] && more[|after|].flush == states[|steps|].flush
    decreases |states[|steps|].live|
  {
    var s := states[|steps|];
    if s.live == map[] {
      more, after := states, steps;
    } else {
      var k :| k in s.live;
      more, after := OneStepMore(states, steps, TabClosed(k));
      Fewer(s.live, k);
      more, after := TabsClose(more, after);
    }
  }

  lemma Fewer<K, V>(m: map<K, V>, k: K)
    requires k in m
    ensures |m - {k}| < |m|
  {
    assert (m - {k}).Keys == m.Keys - {k};
    assert |m.Keys| == |m| && |(m - {k}).Keys| == |m - {k}|;
  }

  /** And the worker stops. */
  lemma AllStop(states: seq<State>, steps: seq<Step>) returns (more: seq<State>, after: seq<Step>)
    requires UndisturbedTrace(states, steps)
    ensures UndisturbedTrace(more, after) && GoesOn(states, steps, more, after)
    ensures SameLine(states[|steps|], more[|after|]) && more[|after|].live == map[] && more[|after|].flush.None?
  {
    more, after := TabsClose(states, steps);
    if more[|after|].flush.Some? {
      more, after := OneStepMore(more, after, WorkerStopped);
    }
  }

  /** All but one are discarded. */
  lemma {:induction false} DiscardsOthers(states: seq<State>, steps: seq<Step>, x: Item) returns (more: seq<State>, after: seq<Step>)
    requires UndisturbedTrace(states, steps) && UniqueIds(states[|steps|].queue) && x in states[|steps|].queue
    ensures UndisturbedTrace(more, after) && GoesOn(states, steps, more, after)
    ensures more[|after|].queue == [x] && OnlyDiscards(states[|steps|], more[|after|])
    decreases |states[|steps|].queue|
  {
    var s := states[|steps|];
    if exists y :: y in s.queue && y.id != x.id {
      var y :| y in s.queue && y.id != x.id;
      more, after := OneStepMore(states, steps, Discard(y.id));
      DiscardsOne(s, x, y);
      more, after := DiscardsOthers(more, after, x);
    } else {
      OnlyOne(s.queue, x);
      more, after := states, steps;
    }
  }

  lemma NothingUnder(s: State, x: Item)
    requires s.live == map[] && s.flush.None?
    ensures !GoneOver(s, x)
  {
  }

  /** It is tried again if it failed, and a new flush is about to send it. */
  lemma SentAgain(states: seq<State>, steps: seq<Step>, x: Item, freshKey: string) returns (more: seq<State>, after: seq<Step>)
    requires UndisturbedTrace(states, steps) && states[|steps|].queue == [x] && !x.superseded && x.userId != ""
    requires states[|steps|].live == map[] && states[|steps|].flush.None? && freshKey !in states[|steps|].hist.keys
    ensures UndisturbedTrace(more, after) && GoesOn(states, steps, more, after)
    ensures more[|after|].hist.ahead == states[|steps|].hist.ahead && Enabled(more[|after|], Pick)
    ensures var y := Picked(more[|after|]); y.id == x.id && y.userId == x.userId && y.change == x.change
  {
    more, after := states, steps;
    if x.status == Failed {
      NothingUnder(states[|steps|], x);
      more, after := OneStepMore(states, steps, RetryItem(x.id, freshKey));
      assert more[|after|].queue == [Retried(x, freshKey)];
    }
    var y := more[|after|].queue[0];
    assert CanPick(x.userId, {}, y);
    more, after := OneStepMore(more, after, StartFlush(x.userId));
  }

  lemma NewerOn(states: seq<State>, steps: seq<Step>, more: seq<State>, after: seq<Step>, r: Request, x: Item, y: Item)
    requires UndisturbedTrace(states, steps) && UndisturbedTrace(more, after) && GoesOn(states, steps, more, after)
    requires more[|after|].hist.ahead == states[|steps|].hist.ahead
    requires y.id == x.id && y.userId == x.userId && y.change == x.change
    requires HasLanded(steps, |steps|, r) && IsNewer(states, steps, |steps|, r, x)
    ensures HasLanded(after, |after|, r) && IsNewer(more, after, |after|, r, y)
  {
    MadeOn(states, steps, more, after, r, x.id);
    LandedOn(steps, after, r);
  }

  /**
    * And the other way: from wherever an undisturbed run leads, an older change still queued that sets what a
    * landed newer one has set can be sent over it in some undisturbed rest of the run, once the answers awaited
    * are given up.
    */
  lemma GivenUpCanBeUndone(states: seq<State>, steps: seq<Step>, r: Request, x: Item, freshKey: string)
    returns (more: seq<State>, after: seq<Step>)
    requires UndisturbedTrace(states, steps) && x in states[|steps|].queue && !x.superseded && freshKey !in states[|steps|].hist.keys
    requires HasLanded(steps, |steps|, r) && IsNewer(states, steps, |steps|, r, x)
    ensures UndisturbedTrace(more, after) && GoesOn(states, steps, more, after) && Enabled(more[|after|], Pick)
    ensures HasLanded(after, |after|, r) && IsNewer(more, after, |after|, r, Picked(more[|after|]))
    ensures Picked(more[|after|]).id == x.id && Picked(more[|after|]).change == x.change
  {
    UsersInvariant(states, steps, |steps|);
    var a, b := AllStop(states, steps);
    var c, d := DiscardsOthers(a, b, x);
    more, after := SentAgain(c, d, x, freshKey);
    NewerOn(states, steps, more, after, r, x, Picked(more[|after|]));
  }

  // ---- A run in which it happens ---------------------------------------------------------------------------

  lemma TraceUndisturbed(states: seq<State>, steps: seq<Step>)
    requires IsTrace(states, steps) && NoRetry(steps)
    ensures UndisturbedTrace(states, steps)
  {
  }

  /** Unwatching is sent, behind nothing, while the refused watching made before it is still queued. */
  lemma UnwatchIsSent() returns (states: seq<State>, steps: seq<Step>, r: Request)
    ensures UndisturbedTrace(states, steps) && InvNet(states[|steps|])
    ensures var s := states[|steps|];
      && |s.queue| == 1 && s.live.Keys == {"l"} && LiveRequest("l", s.live["l"]) == r && r in s.net && s.flush.None?
      && (var x := s.queue[0]; x.id == "a" && x.userId == "u" && x.change == TaskWatch("t") && !x.superseded)
    ensures "k2" !in states[|steps|].hist.keys && r.key == "l" && r.user == "u" && r.change == TaskUnwatch("t") && r.itemId.None?
    ensures MadeAfter(states, steps, |steps|, r, "a")
  {
    steps := UnwatchSent(NewItem("a", TaskWatch("t"), "u", "k"));
    states := TraceOf(steps);
    TraceUndisturbed(states, steps);
    SinceInvariant(states, steps, |steps|);
    r := LiveRequest("l", states[|steps|].live["l"]);
    var m := |steps| - 1;
    assert OneStep(states[m], steps[m], states[m + 1]);
    assert "a" in Ids(states[m].queue);
  }

  lemma TakenUnseen(s: State, r: Request)
    requires r in s.net && r.change.TaskUnwatch? && r.key in s.live
    ensures Enabled(s, Accept(r)) && Enabled(Apply(s, Accept(r)), TabClosed(r.key))
    ensures var t := Apply(Apply(s, Accept(r)), TabClosed(r.key));
      SameLine(s, t) && t.live == s.live - {r.key} && t.flush == s.flush && Apply(s, Accept(r)).hist.ahead == s.hist.ahead
  {
  }

  lemma LandsUnseen(states: seq<State>, steps: seq<Step>, r: Request) returns (more: seq<State>, after: seq<Step>)
    requires UndisturbedTrace(states, steps) && r in states[|steps|].net && r.change.TaskUnwatch? && r.key in states[|steps|].live
    ensures UndisturbedTrace(more, after) && GoesOn(states, steps, more, after) && HasLanded(after, |after|, r)
    ensures var s, t := states[|steps|], more[|after|]; SameLine(s, t) && t.live == s.live - {r.key} && t.flush == s.flush
  {
    TakenUnseen(states[|steps|], r);
    var a, b := OneStepMore(states, steps, Accept(r));
    more, after := OneStepMore(a, b, TabClosed(r.key));
    assert HasLanded(b, |b|, r);
    LandedOn(b, after, r);
  }

  lemma UnwatchIsNewer(states: seq<State>, steps: seq<Step>, r: Request, x: Item)
    requires |steps| < |states| && MadeAfter(states, steps, |steps|, r, "a") && r.user == "u" && r.change == TaskUnwatch("t")
    requires x.id == "a" && x.userId == "u" && x.change == TaskWatch("t")
    ensures IsNewer(states, steps, |steps|, r, x)
  {
    UnwatchFollows(x);
  }

  /** It lands, and its tab is closed before the answer. */
  lemma UnwatchLands() returns (states: seq<State>, steps: seq<Step>, r: Request)
    ensures UndisturbedTrace(states, steps)
    ensures var s := states[|steps|];
      && |s.queue| == 1 && s.live == map[] && s.flush.None? && "k2" !in s.hist.keys
      && (var x := s.queue[0]; x.id == "a" && x.userId == "u" && x.change == TaskWatch("t") && !x.superseded)
    ensures r.user == "u" && r.change == TaskUnwatch("t") && HasLanded(steps, |steps|, r) && MadeAfter(states, steps, |steps|, r, "a")
  {
    var first, began;
    first, began, r := UnwatchIsSent();
    states, steps := LandsUnseen(first, began, r);
    MadeOn(first, began, states, steps, r, "a");
  }

  /**
    * Then the watching is retried, and a flush sends it over the unwatching the server took after it was made:
    * every step of the run is undisturbed.
    */
  lemma UndoneAfterTabClosed() returns (states: seq<State>, steps: seq<Step>, r: Request)
    ensures UndisturbedTrace(states, steps) && Enabled(states[|steps|], Pick)
    ensures r.change == TaskUnwatch("t") && HasLanded(steps, |steps|, r)
    ensures var x := Picked(states[|steps|]);
      x.change == TaskWatch("t") && IsNewer(states, steps, |steps|, r, x) && !Apart(r.change, x.change) && !KeptRemoval(r.change, x.change)
  {
    var a, b;
    a, b, r := UnwatchLands();
    var x := a[|b|].queue[0];
    assert a[|b|].queue == [x];
    UnwatchIsNewer(a, b, r, x);
    states, steps := SentAgain(a, b, x, "k2");
    NewerOn(a, b, states, steps, r, x, Picked(states[|steps|]));
    assert Touches(r.change, WatchCell("t")) && Touches(Picked(states[|steps|]).change, WatchCell("t"));
  }
}
