/** Ways a run can go on: what the next steps may be, whatever came before. */
module Continuations {
  import opened Lists
  import opened Changes
  import opened QueueWrites
  import opened Protocol
  import opened StepItems

  /** Where some steps lead from a state; nowhere when one is not enabled. */
  function Leads(s: State, steps: seq<Step>): Option<State> {
    if steps == [] then Some(s)
    else match Leads(s, steps[..|steps| - 1])
      case None => None
      case Some(t) => if Enabled(t, steps[|steps| - 1]) then Some(Apply(t, steps[|steps| - 1])) else None
  }

  lemma LeadsSnoc(s: State, steps: seq<Step>, step: Step)
    requires Leads(s, steps).Some? && Enabled(Leads(s, steps).value, step)
    ensures Leads(s, steps + [step]) == Some(Apply(Leads(s, steps).value, step))
  {
    assert (steps + [step])[..|steps|] == steps;
  }

  lemma {:induction false} LeadsOn(s: State, a: seq<Step>, b: seq<Step>)
    requires Leads(s, a).Some?
    ensures Leads(s, a + b) == Leads(Leads(s, a).value, b)
  {
    if b == [] {
      assert a + b == a;
    } else {
      LeadsOn(s, a, b[..|b| - 1]);
      assert (a + b)[..|a + b| - 1] == a + b[..|b| - 1];
    }
  }

  /** No Retry among them. */
  predicate NoRetry(steps: seq<Step>) {
    forall n :: 0 <= n < |steps| ==> !steps[n].RetryItem?
  }

  lemma NoRetryTwo(a: Step, b: Step)
    requires !a.RetryItem? && !b.RetryItem?
    ensures NoRetry([a, b])
  {
  }

  lemma NoRetryFirst(a: Step, rest: seq<Step>)
    requires !a.RetryItem? && NoRetry(rest)
    ensures NoRetry([a] + rest)
  {
  }

  // ---- Whose the items are ------------------------------------------------------------------------

  /** Every item is somebody's; a flush tries its own person's only. */
  ghost predicate InvUsers(s: State) {
    && (forall x :: x in s.queue ==> x.userId != "")
    && (forall k :: k in s.live ==> s.live[k].user != "")
    && (s.flush.Some? ==> forall x :: x in s.queue && x.id in s.flush.value.tried ==> x.userId == s.flush.value.user)
    && (s.flush.Some? ==> s.flush.value.tried <= s.hist.enqueued)
  }

  lemma UsersKept(s: State, step: Step)
    requires InvIds(s) && InvUsers(s) && Enabled(s, step)
    ensures InvUsers(Apply(s, step))
  {
    var t := Apply(s, step);
    EnqueuedGrows(s, step);
    if step.Pick? { assert Picked(s) in s.queue; }
    forall y | y in t.queue ensures y.userId != "" && (t.flush.Some? && y.id in t.flush.value.tried ==> y.userId == t.flush.value.user) {
      if Added(s, step) != Some(y) {
        var x := CameFrom(s, step, y);
        MovedId(s, step, x);
        if t.flush.Some? && x.id in t.flush.value.tried { TriedBefore(s, step, x); }
      } else {
        AddedUser(s, step);
      }
    }
  }

  lemma AddedUser(s: State, step: Step)
    requires InvUsers(s) && Enabled(s, step) && Added(s, step).Some?
    ensures var y := Added(s, step).value;
      y.userId != "" && y.id !in s.hist.enqueued && (FlushAfter(s, step).Some? ==> y.id !in FlushAfter(s, step).value.tried)
  {
  }

  lemma TriedBefore(s: State, step: Step, x: Item)
    requires InvIds(s) && InvUsers(s) && Enabled(s, step) && x in s.queue
    requires FlushAfter(s, step).Some? && x.id in FlushAfter(s, step).value.tried
    ensures x.userId == FlushAfter(s, step).value.user
  {
    if step.Pick? && x.id == Picked(s).id {
      MemberHolds(s.queue, x);
      IndexAt(s.queue, NextPick(s.queue, s.flush.value.user, s.flush.value.tried));
    }
  }

  lemma {:induction false} UsersInvariant(states: seq<State>, steps: seq<Step>, n: nat)
    requires IsTrace(states, steps) && n <= |steps|
    ensures InvIds(states[n]) && InvUsers(states[n])
  {
    if n > 0 {
      var s, last := states[n - 1], steps[n - 1];
      UsersInvariant(states, steps, n - 1);
      assert OneStep(s, last, states[n]);
      IdsKept(s, last);
      UsersKept(s, last);
    }
  }

  // ---- One item left ------------------------------------------------------------------------------

  /** The states differ in what is queued and discarded, and what waits for it, and in nothing else. */
  predicate OnlyDiscards(s: State, t: State) {
    && t.live == s.live && t.flush == s.flush && t.net == s.net && t.server == s.server
    && t.hist == s.hist.(discarded := t.hist.discarded, waits := t.hist.waits)
  }

  predicate AllDiscard(steps: seq<Step>, but: string) {
    forall n :: 0 <= n < |steps| ==> steps[n].Discard? && steps[n].id != but
  }

  lemma DiscardsOne(s: State, x: Item, y: Item)
    requires UniqueIds(s.queue) && x in s.queue && y in s.queue && y.id != x.id
    ensures var t := Apply(s, Discard(y.id)); UniqueIds(t.queue) && x in t.queue && |t.queue| < |s.queue| && OnlyDiscards(s, t)
  {
    FilterMembers(s.queue, OtherThan(y.id));
    WithoutUnique(s.queue, y.id);
    Shorter(s.queue, y);
  }

  lemma DiscardFirst(id: string, rest: seq<Step>, but: string)
    requires AllDiscard(rest, but) && id != but
    ensures AllDiscard([Discard(id)] + rest, but)
  {
  }

  /** All the others are discarded. */
  lemma {:induction false} KeepOnly(s: State, x: Item) returns (steps: seq<Step>, t: State)
    requires UniqueIds(s.queue) && x in s.queue
    ensures Leads(s, steps) == Some(t) && AllDiscard(steps, x.id) && t.queue == [x] && OnlyDiscards(s, t)
    decreases |s.queue|
  {
    if exists y :: y in s.queue && y.id != x.id {
      var y :| y in s.queue && y.id != x.id;
      DiscardsOne(s, x, y);
      var rest;
      rest, t := KeepOnly(Apply(s, Discard(y.id)), x);
      steps := [Discard(y.id)] + rest;
      LeadsFirst(s, Discard(y.id), rest);
      DiscardFirst(y.id, rest, x.id);
    } else {
      OnlyOne(s.queue, x);
      steps, t := [], s;
    }
  }

  lemma LeadsFirst(s: State, step: Step, rest: seq<Step>)
    requires Enabled(s, step)
    ensures Leads(s, [step] + rest) == Leads(Apply(s, step), rest)
  {
    LeadsOne(s, step);
    LeadsOn(s, [step], rest);
  }

  lemma LeadsOne(s: State, step: Step)
    requires Enabled(s, step)
    ensures Leads(s, [step]) == Some(Apply(s, step))
  {
    LeadsSnoc(s, [], step);
    assert [] + [step] == [step];
  }

  lemma Shorter(q: Queue, y: Item)
    requires y in q
    ensures |Without(q, y.id)| < |q|
  {
    FilterMembers(q, OtherThan(y.id));
    assert y !in Without(q, y.id);
  }

  lemma OnlyOne(q: Queue, x: Item)
    requires UniqueIds(q) && x in q && forall y :: y in q ==> y.id == x.id
    ensures q == [x]
  {
    forall n | 0 <= n < |q| ensures q[n].id == q[0].id && n == 0 { assert q[n] in q && q[0] in q; }
    assert q[|q| - 1].id == q[0].id;
  }

  /** The states differ only in what is queued, and in new keys. */
  predicate SameAround(s: State, t: State, keys: set<string>) {
    && t.live == s.live && t.net == s.net && t.server == s.server
    && t.hist.enqueued == s.hist.enqueued && t.hist.keys.Keys <= s.hist.keys.Keys + keys
  }

  lemma RetryFrames(s: State, id: string, freshKey: string)
    requires Enabled(s, RetryItem(id, freshKey))
    ensures var t := Apply(s, RetryItem(id, freshKey)); SameAround(s, t, {freshKey}) && t.flush == s.flush
  {
  }

  /** What is being replayed fails for good, and the flush goes on. */
  lemma CurrentFails(s: State, y: Item) returns (steps: seq<Step>, t: State)
    requires InvIds(s) && y in s.queue && (CurrentItem(s).Some? ==> CurrentItem(s).value.id != y.id)
    ensures Leads(s, steps) == Some(t) && NoRetry(steps) && InvIds(t) && y in t.queue && SameAround(s, t, {})
    ensures t.flush == if s.flush.Some? then Some(s.flush.value.(current := None)) else None
  {
    if CurrentItem(s).Some? {
      var fail := ReplayFailed(Some(404), Fail);
      MovedInQueue(s, fail, y);
      IdsKept(s, fail);
      LeadsOne(s, fail);
      steps, t := [fail], Apply(s, fail);
    } else {
      steps, t := [], s;
    }
  }

  /** One item that isn't being replayed is put back in line, what is being replayed fails, and the others are discarded. */
  lemma RetriedAlone(s: State, x: Item, freshKey: string) returns (rest: seq<Step>, t: State, y: Item)
    requires InvIds(s) && x in s.queue && !x.superseded && freshKey !in s.hist.keys
    requires CurrentItem(s).Some? ==> CurrentItem(s).value.id != x.id
    ensures NoRetry(rest) && Leads(s, [RetryItem(x.id, freshKey)] + rest) == Some(t)
    ensures y == Retried(x, freshKey) && t.queue == [y] && SameAround(s, t, {freshKey})
    ensures t.flush == if s.flush.Some? then Some(s.flush.value.(current := None)) else None
  {
    y := Retried(x, freshKey);
    var retry := RetryItem(x.id, freshKey);
    MovedInQueue(s, retry, x);
    IdsKept(s, retry);
    RetryFrames(s, x.id, freshKey);
    LeadsOne(s, retry);
    var failing, free := CurrentFails(Apply(s, retry), y);
    var discards;
    discards, t := KeepOnly(free, y);
    rest := failing + discards;
    LeadsOn(Apply(s, retry), failing, discards);
    LeadsOn(s, [retry], rest);
  }

  lemma MovedInQueue(s: State, step: Step, x: Item)
    requires InvIds(s) && Enabled(s, step) && x in s.queue && !Takes(s, step, x.id)
    ensures Moved(s, step, x) in QueueAfter(s, step)
  {
    EveryItem(s, step);
    assert Moving(s, step)(x) in QueueAfter(s, step);
  }

  /** A running flush is stopped. */
  lemma GoesIdle(s: State) returns (steps: seq<Step>, t: State)
    ensures Leads(s, steps) == Some(t) && NoRetry(steps) && t.flush.None?
    ensures t.queue == s.queue && t.hist == s.hist && t.server == s.server && t.live == s.live
  {
    steps, t := [], s;
    if s.flush.Some? {
      steps, t := [WorkerStopped], Apply(s, WorkerStopped);
      LeadsOne(s, WorkerStopped);
    }
  }

  /** And a new one sends the item. */
  lemma SendsAlone(s: State, x: Item) returns (steps: seq<Step>, t: State)
    requires s.queue == [x] && x.status == Pending && x.userId != ""
    ensures Leads(s, steps) == Some(t) && NoRetry(steps) && t.queue == [x] && t.hist == s.hist && t.server == s.server && t.live == s.live
    ensures Enabled(t, Pick) && Picked(t) == x
  {
    var stop, idle := GoesIdle(s);
    steps, t := stop + [StartFlush(x.userId)], Apply(idle, StartFlush(x.userId));
    LeadsSnoc(s, stop, StartFlush(x.userId));
    assert CanPick(x.userId, {}, x);
  }
}
