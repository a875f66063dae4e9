/** A change made behind waiting ones is never sent before they are settled. */
module Ordering {
  import opened Lists
  import opened Changes
  import opened QueueWrites
  import opened Protocol
  import opened StepItems
  import opened Continuations

  /** Retry isn't pressed on a change the running flush has tried already (and isn't trying now), when another could follow it. */
  predicate Patient(s: State, step: Step)
    requires Enabled(s, step)
  {
    step.RetryItem? ==> !RetriesTried(s, step.id)
  }

  predicate RetriesTried(s: State, id: string) {
    && s.flush.Some? && id in s.flush.value.tried
    && (s.flush.value.current.None? || s.flush.value.current.value.id != id)
    && Holds(s.queue, id) && !s.queue[IndexOf(s.queue, id)].superseded && SubjectOf(s.queue[IndexOf(s.queue, id)].change).Some?
  }

  ghost predicate PatientTrace(states: seq<State>, steps: seq<Step>) {
    IsTrace(states, steps) && forall n :: 0 <= n < |steps| ==> OneStep(states[n], steps[n], states[n + 1]) && Patient(states[n], steps[n])
  }

  // ---- What a flush has tried ---------------------------------------------------------------------

  predicate IsTried(flush: Option<Flush>, x: Item) {
    flush.Some? && x.id in flush.value.tried && (flush.value.current.None? || flush.value.current.value.id != x.id)
  }

  /** What a flush has tried, and others could follow, is in flight, gone, or failed. */
  predicate TriedDone(flush: Option<Flush>, x: Item) {
    IsTried(flush, x) && SubjectOf(x.change).Some? ==> x.status == Failed
  }

  ghost predicate InvTried(s: State) {
    && (forall x :: x in s.queue ==> TriedDone(s.flush, x))
    && (s.flush.Some? ==> s.flush.value.tried <= s.hist.enqueued)
  }

  /** Only Retry makes a failed change wait again. */
  lemma StaysFailed(s: State, step: Step, x: Item)
    requires Enabled(s, step) && x.status == Failed && !(step.RetryItem? && step.id == x.id)
    ensures Moved(s, step, x).status == Failed || (step.ReplayFailed? && CurrentItem(s).value.id == x.id)
  {
    match step
    case SentOk(key, _) => SupersedeShape(s.live[key].user, s.live[key].change, x);
    case ReplayOk(made) => SettledShape(s.queue, CurrentItem(s).value, made, x);
    case ReplayHeld(made) => SettledShape(s.queue, CurrentItem(s).value, made, x);
    case _ =>
  }

  lemma ItemTried(s: State, step: Step, x: Item)
    requires InvIds(s) && InvTried(s) && Enabled(s, step) && Patient(s, step)
    requires x in s.queue && !Takes(s, step, x.id)
    ensures TriedDone(FlushAfter(s, step), Moved(s, step, x))
  {
    MovedId(s, step, x);
    MovedKin(s, step, x);
    assert TriedDone(s.flush, x);
    MemberHolds(s.queue, x);
    if x.status == Failed && !(step.RetryItem? && step.id == x.id) {
      StaysFailed(s, step, x);
    }
  }

  lemma TriedKept(s: State, step: Step)
    requires InvIds(s) && InvTried(s) && Enabled(s, step) && Patient(s, step)
    ensures InvTried(Apply(s, step))
  {
    EnqueuedGrows(s, step);
    forall y | y in QueueAfter(s, step) ensures TriedDone(FlushAfter(s, step), y) {
      if Added(s, step) != Some(y) {
        var x := CameFrom(s, step, y);
        ItemTried(s, step, x);
      }
    }
    if step.Pick? {
      assert s.queue[NextPick(s.queue, s.flush.value.user, s.flush.value.tried)] in s.queue;
    }
  }

  // ---- What a change still awaits ------------------------------------------------------------------

  /** An awaited change stands in line before the one that awaits it. */
  predicate Awaited(q: Queue, user: string, id: string, a: string) {
    Before(q, a, id) && IsWaiting(user, q[IndexOf(q, a)]) && SubjectOf(q[IndexOf(q, a)].change).Some?
  }

  ghost predicate InvWaits(s: State) {
    && (forall y, a :: y in s.queue && y.id in s.hist.waits && a in s.hist.waits[y.id] ==> Awaited(s.queue, y.userId, y.id, a))
    && (forall id :: id in s.hist.waits ==> id in s.hist.enqueued)
  }

  lemma WaitsAfter(s: State, step: Step, id: string)
    requires Enabled(s, step) && id in HistoryAfter(s, step).waits
    ensures Added(s, step).Some? && Added(s, step).value.id == id ==>
      HistoryAfter(s, step).waits[id] == (if step.QueueBehind? then WaitsOn(s.queue, step.user, step.change) else {})
    ensures Added(s, step).None? || Added(s, step).value.id != id ==>
      id in s.hist.waits && HistoryAfter(s, step).waits[id] == s.hist.waits[id] - Settles(s, step)
  {
  }

  /** An item that waits goes on waiting under a step that doesn't settle it. */
  lemma StillWaiting(s: State, step: Step, x: Item)
    requires InvIds(s) && Enabled(s, step) && x in s.queue && x.status == Pending && x.id !in Settles(s, step)
    ensures !Takes(s, step, x.id)
    ensures IsWaiting(x.userId, Moved(s, step, x))
  {
    MemberHolds(s.queue, x);
    assert x.id in Ids(s.queue);
    MovedId(s, step, x);
    match step
    case SentOk(key, _) => SupersedeShape(s.live[key].user, s.live[key].change, x);
    case ReplayOk(made) => SettledShape(s.queue, CurrentItem(s).value, made, x);
    case ReplayHeld(made) => SettledShape(s.queue, CurrentItem(s).value, made, x);
    case _ =>
  }

  lemma AwaitedKept(s: State, step: Step, user: string, id: string, a: string)
    requires InvIds(s) && Enabled(s, step) && Awaited(s.queue, user, id, a) && a !in Settles(s, step)
    requires !Takes(s, step, id) && (Added(s, step).Some? ==> Added(s, step).value.id != id)
    ensures Awaited(QueueAfter(s, step), user, id, a)
  {
    HoldsMember(s.queue, a);
    var x := s.queue[IndexOf(s.queue, a)];
    StillWaiting(s, step, x);
    MovedKin(s, step, x);
    if Added(s, step).Some? { NewId(s, Added(s, step).value.id); }
    StepOrder(s, step, a, id);
    EveryItem(s, step);
    var y := Moving(s, step)(x);
    MovedId(s, step, x);
    MemberHolds(QueueAfter(s, step), y);
  }

  lemma NewWaits(s: State, step: Step, a: string)
    requires InvIds(s) && Enabled(s, step) && step.QueueBehind? && a in WaitsOn(s.queue, step.user, step.change)
    ensures Awaited(QueueAfter(s, step), step.user, step.id, a)
  {
    var x :| x in s.queue && WaitsFor(step.user, step.change, x) && x.id == a;
    MemberHolds(s.queue, x);
    NewId(s, step.id);
    StepOrder(s, step, a, step.id);
    IndexAppend(s.queue, Added(s, step).value, a);
    IndexAppend(s.queue, Added(s, step).value, step.id);
  }

  lemma WaitsKept(s: State, step: Step)
    requires InvIds(s) && InvWaits(s) && Enabled(s, step)
    ensures InvWaits(Apply(s, step))
  {
    var q, waits := QueueAfter(s, step), HistoryAfter(s, step).waits;
    EnqueuedGrows(s, step);
    forall id | id in waits ensures id in HistoryAfter(s, step).enqueued {
      WaitsAfter(s, step, id);
    }
    forall y, a | y in q && y.id in waits && a in waits[y.id] ensures Awaited(q, y.userId, y.id, a) {
      WaitsAfter(s, step, y.id);
      if Added(s, step) == Some(y) {
        NewWaits(s, step, a);
      } else {
        var x := CameFrom(s, step, y);
        MovedId(s, step, x);
        if Added(s, step).Some? { NewId(s, Added(s, step).value.id); MemberHolds(s.queue, x); }
        AwaitedKept(s, step, y.userId, y.id, a);
      }
    }
  }

  lemma {:induction false} OrderInvariant(states: seq<State>, steps: seq<Step>, n: nat)
    requires PatientTrace(states, steps) && n <= |steps|
    ensures InvIds(states[n]) && InvTried(states[n]) && InvWaits(states[n])
  {
    if n > 0 {
      var s, last := states[n - 1], steps[n - 1];
      OrderInvariant(states, steps, n - 1);
      assert OneStep(s, last, states[n]);
      IdsKept(s, last);
      TriedKept(s, last);
      WaitsKept(s, last);
    }
  }

  /** Everything of this person before the item a flush picks has failed. */
  lemma FailedBeforePicked(s: State, x: Item)
    requires InvIds(s) && InvTried(s) && Enabled(s, Pick)
    requires x in s.queue && x.userId == s.flush.value.user && Before(s.queue, x.id, Picked(s).id) && SubjectOf(x.change).Some?
    ensures x.status == Failed
  {
    MemberHolds(s.queue, x);
    IndexAt(s.queue, NextPick(s.queue, s.flush.value.user, s.flush.value.tried));
    assert TriedDone(s.flush, x);
  }

  /** When a flush sends a change, everything it was made behind has been settled. */
  lemma NothingAwaited(s: State)
    requires InvIds(s) && InvTried(s) && InvWaits(s) && Enabled(s, Pick)
    ensures Picked(s).id in s.hist.waits ==> s.hist.waits[Picked(s).id] == {}
  {
    var y := Picked(s);
    assert y in s.queue;
    if y.id in s.hist.waits && s.hist.waits[y.id] != {} {
      var a :| a in s.hist.waits[y.id];
      HoldsMember(s.queue, a);
      if Awaited(s.queue, y.userId, y.id, a) {
        FailedBeforePicked(s, s.queue[IndexOf(s.queue, a)]);
      }
    }
  }

  /** Taking `step` settles change `a`: it is synced, discarded, cleared or marked failed. */
  predicate SettledBy(s: State, step: Step, a: string) {
    Enabled(s, step) && a in Settles(s, step)
  }

  /** Taking `step` queues a change behind `a`, which waits in the queue. */
  predicate MadeBehind(s: State, step: Step, a: string) {
    step.QueueBehind? && a in WaitsOn(s.queue, step.user, step.change)
  }

  predicate Awaits(s: State, b: string, a: string) {
    b in s.hist.enqueued && b in s.hist.waits && a in s.hist.waits[b]
  }

  lemma AwaitsAtFirst(s: State, step: Step, t: State, a: string)
    requires OneStep(s, step, t) && MadeBehind(s, step, a)
    ensures Awaits(t, step.id, a)
  {
  }

  lemma AwaitsOn(s: State, step: Step, t: State, b: string, a: string)
    requires OneStep(s, step, t) && Awaits(s, b, a) && !SettledBy(s, step, a)
    ensures Awaits(t, b, a)
  {
    EnqueuedGrows(s, step);
  }

  /** From the step that made `b` behind `a` on, `b` awaits `a` until some step settles `a`. */
  lemma {:induction false} AwaitsUntilSettled(states: seq<State>, steps: seq<Step>, i: nat, j: nat, a: string) returns (m: nat)
    requires IsTrace(states, steps) && i < j <= |steps| && MadeBehind(states[i], steps[i], a)
    ensures (i < m < j && SettledBy(states[m], steps[m], a)) || Awaits(states[j], steps[i].id, a)
    decreases j
  {
    assert OneStep(states[j - 1], steps[j - 1], states[j]);
    if j == i + 1 {
      AwaitsAtFirst(states[i], steps[i], states[j], a);
      m := 0;
    } else {
      m := AwaitsUntilSettled(states, steps, i, j - 1, a);
      if !(i < m < j - 1 && SettledBy(states[m], steps[m], a)) {
        m := j - 1;
        if !SettledBy(states[m], steps[m], a) {
          AwaitsOn(states[m], steps[m], states[j], steps[i].id, a);
        }
      }
    }
  }

  /**
    * No overtaking: if `a` waited in the queue when step `i` made `b` behind it, then `b` is sent, at a
    * later step `j`, only after some step `m` between them settled `a`.
    */
  lemma NoOvertaking(states: seq<State>, steps: seq<Step>, i: nat, j: nat, a: string) returns (m: nat)
    requires PatientTrace(states, steps) && i < j < |steps| && MadeBehind(states[i], steps[i], a)
    requires steps[j] == Pick && Enabled(states[j], Pick) && Picked(states[j]).id == steps[i].id
    ensures i < m < j && SettledBy(states[m], steps[m], a)
  {
    m := AwaitsUntilSettled(states, steps, i, j, a);
    OrderInvariant(states, steps, j);
    NothingAwaited(states[j]);
  }

  /** A change sent at once has nothing queued that it must follow. */
  lemma SentNowFollowsNothing(s: State, user: string, change: Change, key: string)
    requires Enabled(s, SendNow(user, change, key))
    ensures forall x :: x in s.queue ==> !WaitsFor(user, change, x)
  {
    FilterMembers(s.queue, (i: Item) => WaitsFor(user, change, i));
    assert WaitingWrites(s.queue, user, change) == Filter(s.queue, (i: Item) => WaitsFor(user, change, i));
    forall x | x in s.queue ensures !WaitsFor(user, change, x) {
      if WaitsFor(user, change, x) { OnlyOrderedWait(change, x.change); }
    }
  }

  // ---- Why the assumption is needed ----------------------------------------------------------------

  /** A change that must follow this one. */
  function Follower(c: Change): Change
    requires SubjectOf(c).Some?
  {
    match SubjectOf(c).value
    case Task(task) => TaskDelete(task, false, "")
    case Chat(conversation) => ChatSend(conversation, "", None)
    case Answer(meeting, attendee) => MeetingRespond(meeting, attendee, "")
  }

  lemma FollowerFollows(c: Change)
    requires SubjectOf(c).Some?
    ensures MustFollow(Follower(c), c) && IsOrdered(Follower(c)) && !Follower(c).TaskUpdate?
  {
  }

  /**
    * The assumption on Retry is exact. In any state of a patient run, Retry of a change the flush has tried, which
    * another could follow, lets it be overtaken: some later steps, none of them a Retry, make a change behind it,
    * and the flush picks that one while it still awaits the retried one.
    */
  lemma RetryLetsOvertake(states: seq<State>, steps: seq<Step>, n: nat, id: string, freshKey: string, key: string, b: string)
    returns (more: seq<Step>, t: State)
    requires PatientTrace(states, steps) && n <= |steps| && RetriesTried(states[n], id)
    requires freshKey !in states[n].hist.keys && key !in states[n].hist.keys && key != freshKey && b !in states[n].hist.enqueued
    ensures NoRetry(more) && Leads(states[n], [RetryItem(id, freshKey)] + more) == Some(t)
    ensures Enabled(t, Pick) && Picked(t).id == b && Awaits(t, b, id)
  {
    UsersInvariant(states, steps, n);
    OrderInvariant(states, steps, n);
    more, t := RetriedIsOvertaken(states[n], id, freshKey, key, b);
  }

  lemma RetriedIsOvertaken(s: State, id: string, freshKey: string, key: string, b: string) returns (more: seq<Step>, t: State)
    requires InvIds(s) && InvTried(s) && InvUsers(s) && RetriesTried(s, id)
    requires freshKey !in s.hist.keys && key !in s.hist.keys && key != freshKey && b !in s.hist.enqueued
    ensures NoRetry(more) && Leads(s, [RetryItem(id, freshKey)] + more) == Some(t)
    ensures Enabled(t, Pick) && Picked(t).id == b && Awaits(t, b, id)
  {
    HoldsMember(s.queue, id);
    var x := s.queue[IndexOf(s.queue, id)];
    var alone, y;
    more, alone, y := RetriedAlone(s, x, freshKey);
    var behind;
    FollowerFollows(x.change);
    behind, t := FollowedFirst(alone, y, Follower(x.change), key, b);
    Appended(s, [RetryItem(id, freshKey)], more, behind);
    more := more + [behind];
  }

  /** A change made behind the one left, which the flush has tried, is picked first. */
  lemma FollowedFirst(s: State, y: Item, c: Change, key: string, b: string) returns (behind: Step, t: State)
    requires s.queue == [y] && y.status == Pending && y.userId != "" && MustFollow(c, y.change) && IsOrdered(c) && !c.TaskUpdate?
    requires s.flush.Some? && s.flush.value.current.None? && s.flush.value.user == y.userId
    requires y.id in s.flush.value.tried && b !in s.flush.value.tried
    requires key !in s.hist.keys && b !in s.hist.enqueued
    ensures Enabled(s, behind) && behind.QueueBehind? && t == Apply(s, behind)
    ensures Enabled(t, Pick) && Picked(t) == NewItem(b, c, y.userId, key) && Awaits(t, b, y.id)
    ensures t.queue == [y, NewItem(b, c, y.userId, key)] && t.flush == s.flush && t.server == s.server && t.live == s.live
    ensures b in t.hist.ahead && y.id in t.hist.ahead[b] && t.hist.enqueued == s.hist.enqueued + {b}
  {
    behind := QueueBehind(y.userId, c, key, b);
    BehindOne(s, y, c, key, b);
    t := Apply(s, behind);
    SecondIsPicked(y, NewItem(b, c, y.userId, key), y.userId, s.flush.value.tried);
    AwaitsAtFirst(s, behind, t, y.id);
  }

  lemma Appended(s: State, first: seq<Step>, more: seq<Step>, step: Step)
    requires Leads(s, first + more).Some? && Enabled(Leads(s, first + more).value, step)
    ensures Leads(s, first + (more + [step])) == Some(Apply(Leads(s, first + more).value, step))
  {
    LeadsSnoc(s, first + more, step);
    assert first + (more + [step]) == first + more + [step];
  }

  lemma BehindOne(s: State, y: Item, c: Change, key: string, b: string)
    requires s.queue == [y] && y.status == Pending && y.userId != "" && MustFollow(c, y.change) && IsOrdered(c) && !c.TaskUpdate?
    requires key !in s.hist.keys && b !in s.hist.enqueued
    ensures var step := QueueBehind(y.userId, c, key, b);
      && Enabled(s, step) && QueueAfter(s, step) == [y, NewItem(b, c, y.userId, key)] && FlushAfter(s, step) == s.flush && MadeBehind(s, step, y.id)
  {
    WaitingOne(y, y.userId, c);
    assert y in s.queue;
  }

  /** The unwatching made behind a retried watching is what the flush sends next. */
  lemma BehindIsPicked(steps: seq<Step>, a: Item) returns (more: seq<Step>)
    requires Run(steps).Some?
    requires a == NewItem("a", TaskWatch("t"), "u", "k2").(firstKey := Some("k"))
    requires Run(steps).value.queue == [a] && Run(steps).value.flush == Some(Flush("u", {"a"}, None))
    requires Run(steps).value.hist.keys.Keys == {"k", "k2"} && Run(steps).value.hist.enqueued == {"a"}
    ensures Run(more).Some? && Enabled(Run(more).value, Pick)
    ensures Picked(Run(more).value).id == "b" && Awaits(Run(more).value, "b", "a")
  {
    var c := TaskUnwatch("t");
    var behind, b := QueueBehind("u", c, "l", "b"), NewItem("b", c, "u", "l");
    UnwatchFollows(a);
    BehindOne(Run(steps).value, a, c, "l", "b");
    RunSnoc(steps, behind);
    more := steps + [behind];
    SecondIsPicked(a, b, "u", {"a"});
    AwaitsAtFirst(Run(steps).value, behind, Run(more).value, "a");
  }

  lemma UnwatchFollows(a: Item)
    requires a.change == TaskWatch("t")
    ensures MustFollow(TaskUnwatch("t"), a.change) && IsOrdered(TaskUnwatch("t"))
  {
  }

  lemma WaitingOne(a: Item, user: string, c: Change)
    requires WaitsFor(user, c, a)
    ensures WaitingWrites([a], user, c) == [a]
  {
    assert [a][..0] == [];
  }

  lemma SecondIsPicked(a: Item, b: Item, user: string, tried: set<string>)
    requires a.id in tried && b.id !in tried && IsWaiting(user, b)
    ensures NextPick([a, b], user, tried) == 1
  {
    assert !CanPick(user, tried, [a, b][0]) && CanPick(user, tried, [a, b][1]);
  }

  /**
    * Without the guard a change is overtaken: watching is refused and retried while its flush goes on,
    * and the flush sends the unwatching made behind it first.
    */
  lemma OvertakenAfterRetry() returns (steps: seq<Step>)
    ensures Run(steps).Some? && Enabled(Run(steps).value, Pick)
    ensures var s := Run(steps).value; Picked(s).id == "b" && Awaits(s, "b", "a")
  {
    var a := NewItem("a", TaskWatch("t"), "u", "k");
    var refused := RefusedInFlush(a);
    RunSnoc(refused, RetryItem("a", "k2"));
    var retried := refused + [RetryItem("a", "k2")];
    steps := BehindIsPicked(retried, a.(idempotencyKey := "k2", firstKey := Some("k")));
  }

  /** Watching is kept for later, then refused while a flush replays it. */
  lemma RefusedInFlush(a: Item) returns (steps: seq<Step>)
    requires a == NewItem("a", TaskWatch("t"), "u", "k")
    ensures NoRetry(steps) && Run(steps).Some?
    ensures var s := Run(steps).value;
      && s.queue == [a.(attempts := 1, status := Failed, lastStatus := Some(404))]
      && s.flush == Some(Flush("u", {"a"}, None)) && s.hist.keys.Keys == {"k"} && s.hist.enqueued == {"a"} && s.live == map[]
      && s.server.answers == map[]
  {
    steps := PickedAlone(a);
    RunSnoc(steps, ReplayFailed(Some(404), Fail));
    steps := steps + [ReplayFailed(Some(404), Fail)];
  }

  lemma PickedAlone(a: Item) returns (steps: seq<Step>)
    requires a == NewItem("a", TaskWatch("t"), "u", "k")
    ensures NoRetry(steps) && Run(steps).Some?
    ensures var s := Run(steps).value;
      && s.queue == [a] && s.flush == Some(Flush("u", {"a"}, Some(a)))
      && s.hist.keys.Keys == {"k"} && s.hist.enqueued == {"a"} && s.live == map[] && s.server.answers == map[]
  {
    steps := KeptAlone(a);
    RunSnoc(steps, StartFlush("u"));
    steps := steps + [StartFlush("u")];
    assert CanPick("u", {}, a);
    assert {} + {a.id} == {a.id};
    RunSnoc(steps, Pick);
    steps := steps + [Pick];
  }

  lemma KeptAlone(a: Item) returns (steps: seq<Step>)
    requires a == NewItem("a", TaskWatch("t"), "u", "k")
    ensures NoRetry(steps) && Run(steps).Some?
    ensures var s := Run(steps).value;
      && s.queue == [a] && s.flush == None && s.hist.keys.Keys == {"k"} && s.hist.enqueued == {"a"} && s.live == map[]
      && s.server.answers == map[]
  {
    assert WaitingWrites([], "u", a.change) == [];
    RunSnoc([], SendNow("u", a.change, "k"));
    steps := [] + [SendNow("u", a.change, "k")];
    RunSnoc(steps, SentKept("k", "a"));
    steps := steps + [SentKept("k", "a")];
  }
}
