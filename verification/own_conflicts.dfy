/** What `OwnWrites` assumes of Retry is needed: any other Retry of an edit or move lets an own edit conflict. */
module OwnConflicts {
  import opened Lists
  import opened Changes
  import opened QueueWrites
  import opened Protocol
  import opened StepItems
  import opened OwnWrites
  import opened Continuations
  import Ordering
  import StaleUndo

  ghost predicate CalmThere(s: Option<State>, step: Step, u: string, t: string) {
    s.Some? && Enabled(s.value, step) && Calm(s.value, step, u, t)
  }

  /** Every one of the steps, taken from `s`, is calm. */
  ghost predicate CalmFrom(s: State, steps: seq<Step>, u: string, t: string) {
    forall n :: 0 <= n < |steps| ==> CalmThere(Leads(s, steps[..n]), steps[n], u, t)
  }

  lemma CalmNext(s: State, steps: seq<Step>, step: Step, u: string, t: string)
    requires CalmFrom(s, steps, u, t) && CalmThere(Leads(s, steps), step, u, t)
    ensures CalmFrom(s, steps + [step], u, t) && Leads(s, steps + [step]) == Some(Apply(Leads(s, steps).value, step))
  {
    var all := steps + [step];
    LeadsSnoc(s, steps, step);
    forall n | 0 <= n < |all| ensures CalmThere(Leads(s, all[..n]), all[n], u, t) {
      assert all[..n] == steps[..n];
      if n == |steps| { assert steps[..n] == steps; }
    }
  }

  lemma CalmOn(s: State, a: seq<Step>, b: seq<Step>, u: string, t: string)
    requires CalmFrom(s, a, u, t) && Leads(s, a).Some? && CalmFrom(Leads(s, a).value, b, u, t)
    ensures CalmFrom(s, a + b, u, t) && Leads(s, a + b) == Leads(Leads(s, a).value, b)
  {
    LeadsOn(s, a, b);
    forall n | 0 <= n < |a + b| ensures CalmThere(Leads(s, (a + b)[..n]), (a + b)[n], u, t) {
      if n < |a| {
        assert (a + b)[..n] == a[..n];
      } else {
        assert (a + b)[..n] == a + b[..n - |a|];
        LeadsOn(s, a, b[..n - |a|]);
      }
    }
  }

  lemma DiscardCalm(s: State, step: Step, u: string, t: string)
    requires step.Discard? && CurrentItem(s).None?
    ensures CalmThere(Some(s), step, u, t) && CurrentItem(Apply(s, step)).None?
  {
  }

  lemma LastDiscard(steps: seq<Step>, but: string)
    requires AllDiscard(steps, but) && steps != []
    ensures AllDiscard(steps[..|steps| - 1], but) && steps[|steps| - 1].Discard?
  {
  }

  lemma {:induction false} DiscardsCalm(s: State, steps: seq<Step>, but: string, u: string, t: string)
    requires Leads(s, steps).Some? && AllDiscard(steps, but) && CurrentItem(s).None?
    ensures CalmFrom(s, steps, u, t) && CurrentItem(Leads(s, steps).value).None?
  {
    if steps != [] {
      var init, last := steps[..|steps| - 1], steps[|steps| - 1];
      assert steps == init + [last];
      LastDiscard(steps, but);
      DiscardsCalm(s, init, but, u, t);
      DiscardCalm(Leads(s, init).value, last, u, t);
      CalmNext(s, init, last, u, t);
    }
  }

  // ---- A waiting edit that expects another version --------------------------------------------------------

  /** No request of the queued change `id` was answered. */
  ghost predicate NoAnswerTo(s: State, t: string, id: string) {
    forall r: Request, made: Option<int> :: (r, made) in s.server.replies && OnTask(r.change, t) ==> r.itemId != Some(id)
  }

  /** It waits, and expects another version than the task's. */
  ghost predicate IsStranded(s: State, t: string, y: Item) {
    && y in s.queue && y.status == Pending && y.userId != "" && OnTask(y.change, t)
    && y.change.TaskUpdate? && y.change.expectedVersion.Some? && y.change.expectedVersion.value != VersionOf(s, t)
    && NoAnswerTo(s, t, y.id)
  }

  /** The server can refuse an edit of the task, on its way, for its version. */
  ghost predicate CanConflict(s: State, t: string) {
    exists r: Request :: OnTask(r.change, t) && OnItsWay(s, t, r) && Enabled(s, Conflict(r))
  }

  /** Alone in the queue, it is sent. */
  lemma PickedStranded(s: State, y: Item, u: string, t: string) returns (steps: seq<Step>, end: State)
    requires s.queue == [y] && IsStranded(s, t, y) && s.flush.None?
    ensures CalmFrom(s, steps, u, t) && Leads(s, steps) == Some(end) && CanConflict(end, t)
  {
    var start := StartFlush(y.userId);
    assert CanPick(y.userId, {}, y);
    CalmNext(s, [], start, u, t);
    CalmNext(s, [] + [start], Pick, u, t);
    steps, end := [] + [start] + [Pick], Apply(Apply(s, start), Pick);
    var r := RequestOf(y);
    assert OnTask(r.change, t) && OnItsWay(end, t, r) && Enabled(end, Conflict(r));
  }

  lemma StopsCalmly(s: State, u: string, t: string) returns (steps: seq<Step>, end: State)
    requires !Landed(s, t)
    ensures CalmFrom(s, steps, u, t) && Leads(s, steps) == Some(end)
    ensures end == s.(flush := None, hist := end.hist) && end.hist == s.hist.(waits := end.hist.waits)
  {
    steps, end := [], s;
    if s.flush.Some? {
      CalmNext(s, [], WorkerStopped, u, t);
      steps, end := [] + [WorkerStopped], Apply(s, WorkerStopped);
    }
  }

  lemma AloneCalmly(s: State, y: Item, u: string, t: string) returns (steps: seq<Step>, end: State)
    requires UniqueIds(s.queue) && y in s.queue && CurrentItem(s).None?
    ensures CalmFrom(s, steps, u, t) && Leads(s, steps) == Some(end)
    ensures end.queue == [y] && OnlyDiscards(s, end)
  {
    steps, end := KeepOnly(s, y);
    DiscardsCalm(s, steps, y.id, u, t);
  }

  /** Whatever else there is, it is sent once nothing is being replayed. */
  lemma StrandedConflicts(s: State, y: Item, u: string, t: string) returns (steps: seq<Step>, end: State)
    requires UniqueIds(s.queue) && IsStranded(s, t, y) && CurrentItem(s).None?
    ensures CalmFrom(s, steps, u, t) && Leads(s, steps) == Some(end) && CanConflict(end, t)
  {
    var a, b := AloneCalmly(s, y, u, t);
    var c, d := StopsCalmly(b, u, t);
    CalmOn(s, a, c, u, t);
    var e;
    e, end := PickedStranded(d, y, u, t);
    CalmOn(s, a + c, e, u, t);
    steps := a + c + e;
  }

  // ---- What is being replayed ends ------------------------------------------------------------------------

  /** The replay's answers name the task's version, and it isn't the replay of `y`. */
  ghost predicate FliesAside(s: State, t: string, y: Item) {
    CurrentItem(s).Some? ==>
      && CurrentItem(s).value.id != y.id
      && (Flying(s, t) ==> forall made :: (RequestOf(CurrentItem(s).value), made) in s.server.replies ==> made == Some(VersionOf(s, t)))
  }

  lemma FlightLands(s: State, y: Item, t: string) returns (step: Step)
    requires InvIds(s) && y in s.queue && y.status == Pending && OnTask(y.change, t) && FliesAside(s, t, y) && Landed(s, t)
    requires !(y.change.TaskUpdate? && y.change.expectedVersion == Some(VersionOf(s, t) - 1))
    ensures Enabled(s, step) && step.ReplayOk?
    ensures y in QueueAfter(s, step)
  {
    var made :| (RequestOf(CurrentItem(s).value), made) in s.server.replies;
    step := ReplayOk(made);
    MovedInQueue(s, step, y);
    StandsAside(s, y, made);
  }

  lemma StandsAside(s: State, y: Item, made: Option<int>)
    requires CurrentItem(s).Some? && y.status == Pending
    requires y.change.TaskUpdate? && y.change.expectedVersion.Some? && made.Some? ==> y.change.expectedVersion.value != made.value - 1
    ensures Settled(s.queue, CurrentItem(s).value, made, y) == y
  {
  }

  /** What is being replayed succeeds if it has landed, and is stopped otherwise: neither moves `y`. */
  lemma FlightEnds(s: State, y: Item, u: string, t: string) returns (steps: seq<Step>, end: State)
    requires InvIds(s) && y in s.queue && y.status == Pending && OnTask(y.change, t) && FliesAside(s, t, y)
    requires Landed(s, t) ==> !(y.change.TaskUpdate? && y.change.expectedVersion == Some(VersionOf(s, t) - 1))
    ensures CalmFrom(s, steps, u, t) && Leads(s, steps) == Some(end)
    ensures InvIds(end) && y in end.queue && CurrentItem(end).None? && end.server == s.server && end.live == s.live && end.net == s.net
    ensures end.hist.enqueued == s.hist.enqueued && end.hist.keys == s.hist.keys
  {
    if Landed(s, t) {
      var step := FlightLands(s, y, t);
      IdsKept(s, step);
      CalmNext(s, [], step, u, t);
      steps, end := [] + [step], Apply(s, step);
    } else {
      steps, end := StopsCalmly(s, u, t);
    }
  }

  // ---- A live write of the task still to land --------------------------------------------------------------

  /** It lands, and `y` expects the version before. */
  lemma LandsBefore(s: State, y: Item, k: string, u: string, t: string) returns (step: Step, end: State)
    requires y in s.queue && y.status == Pending && y.userId != "" && OnTask(y.change, t) && NoAnswerTo(s, t, y.id)
    requires y.change.TaskUpdate? && y.change.expectedVersion == Some(VersionOf(s, t))
    requires k in s.live && LiveRequest(k, s.live[k]) in s.net && OnTask(s.live[k].change, t) && !HasReply(s, LiveRequest(k, s.live[k]))
    requires !IsStale(s, LiveRequest(k, s.live[k]))
    ensures Enabled(s, step) && Calm(s, step, u, t) && end == Apply(s, step)
    ensures IsStranded(end, t, y) && end.queue == s.queue && end.flush == s.flush
  {
    var r := LiveRequest(k, s.live[k]);
    step, end := Accept(r), Apply(s, Accept(r));
    VersionAfter(s, step, t);
    forall a, made | (a, made) in end.server.replies && OnTask(a.change, t) ensures a.itemId != Some(y.id) {
      RepliesAfter(s, step, a, made);
    }
  }

  lemma LandingConflicts(s: State, y: Item, k: string, u: string, t: string) returns (steps: seq<Step>, end: State)
    requires UniqueIds(s.queue) && CurrentItem(s).None?
    requires y in s.queue && y.status == Pending && y.userId != "" && OnTask(y.change, t) && NoAnswerTo(s, t, y.id)
    requires y.change.TaskUpdate? && y.change.expectedVersion == Some(VersionOf(s, t))
    requires k in s.live && LiveRequest(k, s.live[k]) in s.net && OnTask(s.live[k].change, t) && !HasReply(s, LiveRequest(k, s.live[k]))
    requires !IsStale(s, LiveRequest(k, s.live[k]))
    ensures CalmFrom(s, steps, u, t) && Leads(s, steps) == Some(end) && CanConflict(end, t)
  {
    var step, landed := LandsBefore(s, y, k, u, t);
    CalmNext(s, [], step, u, t);
    var rest;
    rest, end := StrandedConflicts(landed, y, u, t);
    CalmOn(s, [] + [step], rest, u, t);
    steps := [] + [step] + rest;
  }

  /** An edit made of the newest copy, queued behind a waiting change that names no version. */
  lemma EditsBehind(s: State, y: Item, u: string, t: string, key: string, b: string) returns (step: Step, end: State, e: Item)
    requires s.queue == [y] && y.status == Pending && y.userId == u && u != "" && OnTask(y.change, t) && ExpectedVersion(y.change).None?
    requires key !in s.hist.keys && b !in s.hist.enqueued && b != y.id
    ensures Enabled(s, step) && Calm(s, step, u, t) && end == Apply(s, step)
    ensures end.queue == [y, e] && e.id == b && e.userId == u && e.status == Pending && OnTask(e.change, t)
    ensures e.change.TaskUpdate? && e.change.expectedVersion == Some(VersionOf(s, t))
    ensures end.server == s.server && end.live == s.live && end.net == s.net && end.flush == s.flush
  {
    var c := TaskUpdate(t, map[], Some(VersionOf(s, t)));
    FollowsOnTask(c, y.change, t);
    Ordering.WaitingOne(y, u, c);
    assert NewestExpected([y]).None? by { assert [y][..0] == []; }
    step := QueueBehind(u, c, key, b);
    end, e := Apply(s, step), NewItem(b, c, u, key);
  }

  lemma BehindConflicts(s: State, y: Item, k: string, u: string, t: string, key: string, b: string) returns (steps: seq<Step>, end: State)
    requires UniqueIds(s.queue) && CurrentItem(s).None?
    requires y in s.queue && y.status == Pending && y.userId == u && u != "" && OnTask(y.change, t) && ExpectedVersion(y.change).None?
    requires key !in s.hist.keys && b !in s.hist.enqueued && b != y.id && NoAnswerTo(s, t, b)
    requires k in s.live && LiveRequest(k, s.live[k]) in s.net && OnTask(s.live[k].change, t) && !HasReply(s, LiveRequest(k, s.live[k]))
    requires !IsStale(s, LiveRequest(k, s.live[k]))
    ensures CalmFrom(s, steps, u, t) && Leads(s, steps) == Some(end) && CanConflict(end, t)
  {
    var a, alone := AloneCalmly(s, y, u, t);
    var step, two, e := EditsBehind(alone, y, u, t, key, b);
    CalmNext(s, a, step, u, t);
    var rest;
    rest, end := LandingConflicts(two, e, k, u, t);
    CalmOn(s, a + [step], rest, u, t);
    steps := a + [step] + rest;
  }

  // ---- Any Retry that is not calm --------------------------------------------------------------------------

  /** What a Retry that isn't calm puts back: a failed edit or move of the task, which nothing is replaying and no answer names. */
  lemma RetriedFailed(s: State, u: string, t: string, id: string, freshKey: string) returns (x: Item)
    requires InvIds(s) && InvCurrent(s) && InvCalm(s, u, t) && Enabled(s, RetryItem(id, freshKey)) && !Calm(s, RetryItem(id, freshKey), u, t)
    ensures x in s.queue && x.id == id && OnTask(x.change, t) && !x.superseded && x.userId == u
    ensures !(NoneComing(s, t) && Expects(s, t, x.change))
    ensures FliesAside(s, t, x) && NoAnswerTo(s, t, id)
  {
    HoldsMember(s.queue, id);
    x := s.queue[IndexOf(s.queue, id)];
    assert GoodItem(s, u, t, x);
    if CurrentItem(s).Some? && CurrentItem(s).value.id == id {
      SameSubject(x.change, CurrentItem(s).value.change, t);
    }
    forall r, made | (r, made) in s.server.replies && OnTask(r.change, t) ensures r.itemId != Some(id) {
      assert GoodReply(s, t, r);
    }
  }

  lemma RetriedStands(s: State, x: Item, t: string, freshKey: string) returns (again: State, y: Item)
    requires InvIds(s) && Enabled(s, RetryItem(x.id, freshKey)) && x in s.queue && !x.superseded && FliesAside(s, t, x) && NoAnswerTo(s, t, x.id)
    ensures again == Apply(s, RetryItem(x.id, freshKey)) && InvIds(again)
    ensures y in again.queue && y.id == x.id && y.userId == x.userId && y.change == x.change && y.status == Pending
    ensures FliesAside(again, t, y) && NoAnswerTo(again, t, y.id)
    ensures again.server == s.server && again.live == s.live && again.net == s.net && again.flush == s.flush
    ensures again.hist.enqueued == s.hist.enqueued && again.hist.keys.Keys <= s.hist.keys.Keys + {freshKey}
  {
    var retry := RetryItem(x.id, freshKey);
    again, y := Apply(s, retry), Retried(x, freshKey);
    IdsKept(s, retry);
    MovedInQueue(s, retry, x);
  }

  /** A live write of the task still to land can land. */
  lemma ComingLands(s: State, u: string, t: string) returns (k: string)
    requires InvCalm(s, u, t) && StaleUndo.InvSent(s) && !NoneComing(s, t)
    ensures k in s.live && LiveRequest(k, s.live[k]) in s.net && OnTask(s.live[k].change, t) && !HasReply(s, LiveRequest(k, s.live[k]))
    ensures !IsStale(s, LiveRequest(k, s.live[k])) && !Flying(s, t)
  {
    k :| k in s.live && OnTask(s.live[k].change, t) && !HasReply(s, LiveRequest(k, s.live[k]));
    assert GoodLive(s, u, t, k);
    if Flying(s, t) { FlyingAlone(s, u, t); }
  }

  lemma NoneNamed(s: State, u: string, t: string, b: string)
    requires InvCalm(s, u, t) && b !in s.hist.enqueued
    ensures NoAnswerTo(s, t, b)
  {
    forall r, made | (r, made) in s.server.replies && OnTask(r.change, t) ensures r.itemId != Some(b) {
      assert GoodReply(s, t, r);
    }
  }

  /** From where the retried change stands, with nothing being replayed. */
  lemma RetriedConflicts(s: State, y: Item, coming: Option<string>, u: string, t: string, key: string, b: string) returns (steps: seq<Step>, end: State)
    requires InvIds(s) && CurrentItem(s).None? && y in s.queue && y.status == Pending && y.userId == u && u != ""
    requires OnTask(y.change, t) && NoAnswerTo(s, t, y.id) && NoAnswerTo(s, t, b)
    requires key !in s.hist.keys && b !in s.hist.enqueued
    requires coming.None? ==> ExpectedVersion(y.change).Some? && ExpectedVersion(y.change).value != VersionOf(s, t)
    requires coming.Some? ==>
      var k := coming.value;
      && k in s.live && LiveRequest(k, s.live[k]) in s.net && OnTask(s.live[k].change, t) && !HasReply(s, LiveRequest(k, s.live[k]))
      && !IsStale(s, LiveRequest(k, s.live[k]))
    ensures CalmFrom(s, steps, u, t) && Leads(s, steps) == Some(end) && CanConflict(end, t)
  {
    if ExpectedVersion(y.change).None? {
      steps, end := BehindConflicts(s, y, coming.value, u, t, key, b);
    } else if ExpectedVersion(y.change).value != VersionOf(s, t) {
      steps, end := StrandedConflicts(s, y, u, t);
    } else {
      steps, end := LandingConflicts(s, y, coming.value, u, t);
    }
  }

  lemma UncalmRetry(s: State, u: string, t: string, id: string, freshKey: string, key: string, b: string)
    returns (more: seq<Step>, end: State)
    requires InvIds(s) && InvCurrent(s) && InvCalm(s, u, t) && StaleUndo.InvSent(s) && InvUsers(s)
    requires Enabled(s, RetryItem(id, freshKey)) && !Calm(s, RetryItem(id, freshKey), u, t)
    requires key !in s.hist.keys && key != freshKey && b !in s.hist.enqueued
    ensures var again := Apply(s, RetryItem(id, freshKey));
      CalmFrom(again, more, u, t) && Leads(again, more) == Some(end) && CanConflict(end, t)
  {
    NoneNamed(s, u, t, b);
    var x := RetriedFailed(s, u, t, id, freshKey);
    var again, y := RetriedStands(s, x, t, freshKey);
    var coming := None;
    if !NoneComing(s, t) {
      var k := ComingLands(s, u, t);
      coming := Some(k);
    }
    var a, settled := FlightEnds(again, y, u, t);
    var rest;
    rest, end := RetriedConflicts(settled, y, coming, u, t, key, b);
    CalmOn(again, a, rest, u, t);
    more := a + rest;
  }

  /**
    * The assumption on Retry is exact. In any state of a calm run, a Retry that is not calm lets an own edit conflict:
    * after some later steps, all of them calm, an edit of the task is on its way that the server can refuse for its version.
    */
  lemma RetryLetsConflict(states: seq<State>, steps: seq<Step>, n: nat, u: string, t: string, id: string, freshKey: string, key: string, b: string)
    returns (more: seq<Step>, end: State)
    requires CalmTrace(states, steps, u, t) && n <= |steps|
    requires Enabled(states[n], RetryItem(id, freshKey)) && !Calm(states[n], RetryItem(id, freshKey), u, t)
    requires key !in states[n].hist.keys && key != freshKey && b !in states[n].hist.enqueued
    ensures var again := Apply(states[n], RetryItem(id, freshKey));
      CalmFrom(again, more, u, t) && Leads(again, more) == Some(end) && CanConflict(end, t)
  {
    var s := states[n];
    CalmInvariant(states, steps, n, u, t);
    StaleUndo.SentInvariant(states, steps, n);
    UsersInvariant(states, steps, n);
    more, end := UncalmRetry(s, u, t, id, freshKey, key, b);
  }
}
