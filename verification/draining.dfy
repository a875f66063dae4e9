/** A queue of this device's edits and moves drains: each replay lands, and none is refused for its version. */
module Draining {
  import opened Lists
  import opened Changes
  import opened QueueWrites
  import opened Protocol
  import opened StepItems
  import opened OwnWrites
  import opened Continuations

  /** Every task's own writes are in order. */
  ghost predicate AllCalm(s: State, u: string) {
    InvIds(s) && InvCurrent(s) && forall t :: InvCalm(s, u, t)
  }

  lemma StepCalm(s: State, step: Step, u: string)
    requires AllCalm(s, u) && Enabled(s, step) && forall t :: Calm(s, step, u, t)
    ensures AllCalm(Apply(s, step), u)
  {
    IdsKept(s, step);
    CurrentKept(s, step);
    forall t ensures InvCalm(Apply(s, step), u, t) { CalmKept(s, step, u, t); }
  }

  /** Nothing fails or conflicts on the way. */
  predicate Smooth(steps: seq<Step>) {
    forall n :: 0 <= n < |steps| ==> !steps[n].Conflict? && !steps[n].ReplayFailed?
  }

  lemma SmoothThree(r: Request, made: Option<int>)
    ensures Smooth([Pick, Accept(r), ReplayOk(made)])
  {
  }

  lemma SmoothBoth(a: seq<Step>, b: seq<Step>)
    requires Smooth(a) && Smooth(b)
    ensures Smooth(a + b)
  {
  }

  lemma ThreeSteps(s: State, a: Step, b: Step, c: Step)
    requires Enabled(s, a) && Enabled(Apply(s, a), b) && Enabled(Apply(Apply(s, a), b), c)
    ensures Leads(s, [a, b, c]) == Some(Apply(Apply(Apply(s, a), b), c))
  {
    LeadsSnoc(s, [], a);
    assert [] + [a] == [a] && [a] + [b] == [a, b] && [a, b] + [c] == [a, b, c];
    LeadsSnoc(s, [a], b);
    LeadsSnoc(s, [a, b], c);
  }

  /** The picked edit or move lands, and every task's writes stay in order. */
  lemma LandsCalm(s: State, u: string) returns (landed: State)
    requires AllCalm(s, u) && Enabled(s, Pick) && IsVersioned(Picked(s).change) && Picked(s).change.id != ""
    ensures Enabled(Apply(s, Pick), Accept(RequestOf(Picked(s)))) && landed == Apply(Apply(s, Pick), Accept(RequestOf(Picked(s))))
    ensures AllCalm(landed, u) && CurrentItem(landed) == Some(Picked(s)) && landed.queue == s.queue
    ensures VersionOf(landed, Picked(s).change.id) == VersionOf(s, Picked(s).change.id) + 1
    ensures Enabled(landed, ReplayOk(Some(VersionOf(landed, Picked(s).change.id))))
  {
    var t, sent, r := Picked(s).change.id, Apply(s, Pick), RequestOf(Picked(s));
    landed := PickedLands(s, u, t);
    StepCalm(s, Pick, u);
    PickedGood(s, u, t);
    assert OnItsWay(sent, t, r);
    StepCalm(sent, Accept(r), u);
  }

  /** The next waiting edit or move: it is sent, made its task's next version, and leaves the queue. */
  lemma DrainOne(s: State, u: string) returns (steps: seq<Step>, after: State, made: Option<int>)
    requires AllCalm(s, u) && Enabled(s, Pick) && IsVersioned(Picked(s).change) && Picked(s).change.id != ""
    ensures Leads(s, steps) == Some(after) && |steps| == 3 && Smooth(steps) && Landings(steps) == [Picked(s).id]
    ensures AllCalm(after, u) && after.server.conflicts == s.server.conflicts
    ensures VersionOf(after, Picked(s).change.id) == VersionOf(s, Picked(s).change.id) + 1
    ensures after.flush == Some(Flush(s.flush.value.user, s.flush.value.tried + {Picked(s).id}, None))
    ensures after.queue == AfterSuccess(s.queue, Picked(s), made)
  {
    var landed := LandsCalm(s, u);
    made := Some(VersionOf(landed, Picked(s).change.id));
    StepCalm(landed, ReplayOk(made), u);
    after := Apply(landed, ReplayOk(made));
    steps := [Pick, Accept(RequestOf(Picked(s))), ReplayOk(made)];
    SmoothThree(RequestOf(Picked(s)), made);
    LandsOne(Picked(s), made);
    ThreeSteps(s, Pick, Accept(RequestOf(Picked(s))), ReplayOk(made));
    WhatStays(s, landed, made);
  }

  lemma WhatStays(s: State, landed: State, made: Option<int>)
    requires Enabled(s, Pick) && Enabled(Apply(s, Pick), Accept(RequestOf(Picked(s)))) && landed == Apply(Apply(s, Pick), Accept(RequestOf(Picked(s))))
    requires Enabled(landed, ReplayOk(made)) && CurrentItem(landed) == Some(Picked(s)) && landed.queue == s.queue
    ensures var after := Apply(landed, ReplayOk(made));
      && after.server == landed.server && landed.server.conflicts == s.server.conflicts
      && after.flush == Some(Flush(s.flush.value.user, s.flush.value.tried + {Picked(s).id}, None))
      && after.queue == AfterSuccess(s.queue, Picked(s), made)
  {
  }

  /** What waits after a success write waited before it, and is the same kind of change. */
  lemma PickableBefore(q: Queue, item: Item, made: Option<int>, user: string, tried: set<string>, y: Item) returns (x: Item)
    requires UniqueIds(q) && y in AfterSuccess(q, item, made) && CanPick(user, tried + {item.id}, y)
    ensures x in q && x.id == y.id && CanPick(user, tried, x) && KinChange(y.change, x.change)
  {
    AfterSuccessItems(q, item, made);
    x :| x in q && x.id != item.id && y == Settling(q, item, made)(x);
    SettledShape(q, item, made, x);
  }

  /** What a flush is still to send. */
  function ToSend(q: Queue, user: string, tried: set<string>): set<string> {
    set x | x in q && CanPick(user, tried, x) :: x.id
  }

  lemma StillWaits(q: Queue, item: Item, made: Option<int>, user: string, tried: set<string>, x: Item) returns (y: Item)
    requires UniqueIds(q) && x in q && x.id != item.id && CanPick(user, tried, x)
    ensures y in AfterSuccess(q, item, made) && y.id == x.id && CanPick(user, tried + {item.id}, y)
  {
    AfterSuccessItems(q, item, made);
    SettledShape(q, item, made, x);
    y := Settling(q, item, made)(x);
  }

  lemma OneLess(q: Queue, item: Item, made: Option<int>, user: string, tried: set<string>)
    requires UniqueIds(q) && item in q && CanPick(user, tried, item)
    ensures ToSend(AfterSuccess(q, item, made), user, tried + {item.id}) == ToSend(q, user, tried) - {item.id}
    ensures item.id in ToSend(q, user, tried)
  {
    var after := AfterSuccess(q, item, made);
    AfterSuccessItems(q, item, made);
    forall id | id in ToSend(after, user, tried + {item.id}) ensures id in ToSend(q, user, tried) - {item.id} {
      var z :| z in after && CanPick(user, tried + {item.id}, z) && z.id == id;
      var x := PickableBefore(q, item, made, user, tried, z);
    }
    forall id | id in ToSend(q, user, tried) - {item.id} ensures id in ToSend(after, user, tried + {item.id}) {
      var x :| x in q && CanPick(user, tried, x) && x.id == id;
      var y := StillWaits(q, item, made, user, tried, x);
    }
  }

  /** The same, in the order of the queue. */
  function SendOrder(q: Queue, user: string, tried: set<string>): seq<string> {
    if q == [] then []
    else
      var rest := SendOrder(q[..|q| - 1], user, tried);
      if CanPick(user, tried, q[|q| - 1]) then rest + [q[|q| - 1].id] else rest
  }

  /** The queued changes whose requests the server takes, in order. */
  function Landings(steps: seq<Step>): seq<string> {
    if steps == [] then []
    else
      var rest, last := Landings(steps[..|steps| - 1]), steps[|steps| - 1];
      if last.Accept? && last.request.itemId.Some? then rest + [last.request.itemId.value] else rest
  }

  lemma LandsOne(item: Item, made: Option<int>)
    ensures Landings([Pick, Accept(RequestOf(item)), ReplayOk(made)]) == [item.id]
  {
    var r := RequestOf(item);
    assert [Pick, Accept(r), ReplayOk(made)][..2] == [Pick, Accept(r)];
    assert [Pick, Accept(r)][..1] == [Pick] && [Pick][..0] == [];
    assert Landings([Pick]) == [];
    assert Landings([Pick, Accept(r)]) == [item.id];
  }

  lemma {:induction false} LandsBoth(a: seq<Step>, b: seq<Step>)
    ensures Landings(a + b) == Landings(a) + Landings(b)
  {
    if b == [] {
      assert a + b == a;
    } else {
      assert (a + b)[..|a + b| - 1] == a + b[..|b| - 1];
      LandsBoth(a, b[..|b| - 1]);
    }
  }

  lemma {:induction false} OrderMapped(q: Queue, f: Item -> Item, user: string, tried: set<string>)
    requires forall x :: x in q ==> f(x).id == x.id && (CanPick(user, tried, f(x)) <==> CanPick(user, tried, x))
    ensures SendOrder(Mapped(q, f), user, tried) == SendOrder(q, user, tried)
  {
    if q != [] {
      var init := q[..|q| - 1];
      OrderMapped(init, f, user, tried);
      assert Mapped(q, f)[..|q| - 1] == Mapped(init, f);
      assert q[|q| - 1] in q;
    }
  }

  lemma {:induction false} OrderWithout(q: Queue, id: string, user: string, tried: set<string>)
    requires id in tried
    ensures SendOrder(Without(q, id), user, tried) == SendOrder(q, user, tried)
  {
    if q != [] {
      var init, last := q[..|q| - 1], q[|q| - 1];
      OrderWithout(init, id, user, tried);
      OrderSnoc(Without(init, id), last, user, tried);
    }
  }

  lemma OrderSnoc(q: Queue, x: Item, user: string, tried: set<string>)
    ensures SendOrder(q + [x], user, tried) == SendOrder(q, user, tried) + (if CanPick(user, tried, x) then [x.id] else [])
  {
    assert (q + [x])[..|q|] == q;
  }

  lemma {:induction false} NoneInOrder(q: Queue, user: string, tried: set<string>)
    requires forall n :: 0 <= n < |q| ==> !CanPick(user, tried, q[n])
    ensures SendOrder(q, user, tried) == []
  {
    if q != [] { NoneInOrder(q[..|q| - 1], user, tried); }
  }

  /** What can be picked first comes first. */
  lemma {:induction false} FirstInOrder(q: Queue, at: nat, user: string, tried: set<string>)
    requires UniqueIds(q) && at < |q| && CanPick(user, tried, q[at]) && forall n :: 0 <= n < at ==> !CanPick(user, tried, q[n])
    ensures SendOrder(q, user, tried) == [q[at].id] + SendOrder(q, user, tried + {q[at].id})
  {
    var init := q[..|q| - 1];
    if at < |init| {
      FirstInOrder(init, at, user, tried);
      assert q[at].id != q[|q| - 1].id;
    } else {
      NoneInOrder(init, user, tried);
      NoneInOrder(init, user, tried + {q[at].id});
    }
  }

  /** After a success write the others come as before. */
  lemma OrderAfter(q: Queue, item: Item, made: Option<int>, user: string, tried: set<string>)
    requires UniqueIds(q) && item.id in tried
    ensures SendOrder(AfterSuccess(q, item, made), user, tried) == SendOrder(q, user, tried)
  {
    AfterSuccessIs(q, item, made);
    var f := Settling(q, item, made);
    forall x | x in q ensures f(x).id == x.id && (CanPick(user, tried, f(x)) <==> CanPick(user, tried, x)) {
      SettledShape(q, item, made, x);
    }
    OrderMapped(q, f, user, tried);
    OrderWithout(Mapped(q, f), item.id, user, tried);
  }

  /** A flush is to send edits and moves only. */
  predicate OnlyWrites(q: Queue, user: string, tried: set<string>) {
    forall x :: x in q && CanPick(user, tried, x) ==> IsVersioned(x.change) && x.change.id != ""
  }

  lemma OnlyWritesKept(q: Queue, item: Item, made: Option<int>, user: string, tried: set<string>)
    requires UniqueIds(q) && OnlyWrites(q, user, tried)
    ensures OnlyWrites(AfterSuccess(q, item, made), user, tried + {item.id})
  {
    var after := AfterSuccess(q, item, made);
    forall y | y in after && CanPick(user, tried + {item.id}, y) ensures IsVersioned(y.change) && y.change.id != "" {
      var x := PickableBefore(q, item, made, user, tried, y);
      assert IsVersioned(x.change);
    }
  }

  /**
    * A queue of edits and moves, of any tasks, drains: while nobody else writes and every answer arrives,
    * the flush sends each of them once, in order, each lands as its task's next version, and none conflicts.
    */
  lemma {:induction false} DrainsAll(s: State, u: string, f: Flush) returns (steps: seq<Step>, end: State)
    requires AllCalm(s, u) && s.flush == Some(f) && f.current == None && OnlyWrites(s.queue, f.user, f.tried)
    ensures Leads(s, steps) == Some(end) && |steps| == 3 * |ToSend(s.queue, f.user, f.tried)|
    ensures Smooth(steps) && Landings(steps) == SendOrder(s.queue, f.user, f.tried)
    ensures AllCalm(end, u) && Enabled(end, EndFlush) && end.server.conflicts == s.server.conflicts
    ensures forall id :: Holds(end.queue, id) <==> Holds(s.queue, id) && id !in ToSend(s.queue, f.user, f.tried)
    decreases ToSend(s.queue, f.user, f.tried)
  {
    if Enabled(s, Pick) {
      var item := Picked(s);
      var first, after, made := DrainOne(s, u);
      OnlyWritesKept(s.queue, item, made, f.user, f.tried);
      OneLess(s.queue, item, made, f.user, f.tried);
      var rest;
      rest, end := DrainsAll(after, u, Flush(f.user, f.tried + {item.id}, None));
      steps := first + rest;
      LeadsOn(s, first, rest);
      SmoothBoth(first, rest);
      LandsBoth(first, rest);
      FirstInOrder(s.queue, NextPick(s.queue, f.user, f.tried), f.user, f.tried);
      OrderAfter(s.queue, item, made, f.user, f.tried + {item.id});
      IdsLeft(s.queue, item, made);
    } else {
      steps, end := [], s;
      NothingToSend(s, f);
    }
  }

  lemma IdsLeft(q: Queue, item: Item, made: Option<int>)
    requires UniqueIds(q)
    ensures forall id :: Holds(AfterSuccess(q, item, made), id) <==> Holds(q, id) && id != item.id
  {
    AfterSuccessItems(q, item, made);
    forall id | id != item.id ensures Holds(AfterSuccess(q, item, made), id) <==> Holds(q, id) {
      AfterSuccessOrder(q, item, made, id, id);
    }
  }

  lemma NothingToSend(s: State, f: Flush)
    requires s.flush == Some(f) && f.current == None && !Enabled(s, Pick)
    ensures ToSend(s.queue, f.user, f.tried) == {} && SendOrder(s.queue, f.user, f.tried) == [] && Enabled(s, EndFlush)
  {
    assert NextPick(s.queue, f.user, f.tried) == |s.queue|;
    NoneInOrder(s.queue, f.user, f.tried);
    forall x | x in s.queue ensures !CanPick(f.user, f.tried, x) {
      var n :| 0 <= n < |s.queue| && s.queue[n] == x;
    }
  }

  /** So it is from any state of a run that is calm for every task, when a flush starts there. */
  lemma CalmRunDrains(states: seq<State>, steps: seq<Step>, n: nat, u: string) returns (more: seq<Step>, end: State)
    requires (forall t :: CalmTrace(states, steps, u, t)) && n <= |steps|
    requires u != "" && states[n].flush.None? && OnlyWrites(states[n].queue, u, {})
    ensures Leads(states[n], [StartFlush(u)] + more) == Some(end) && Smooth(more) && Landings(more) == SendOrder(states[n].queue, u, {})
    ensures Enabled(end, EndFlush) && end.server.conflicts == states[n].server.conflicts
    ensures forall id :: Holds(end.queue, id) <==> Holds(states[n].queue, id) && id !in ToSend(states[n].queue, u, {})
  {
    assert CalmTrace(states, steps, u, "");
    var s := states[n];
    CalmInvariant(states, steps, n, u, "");
    forall t ensures InvCalm(s, u, t) {
      assert CalmTrace(states, steps, u, t);
      CalmInvariant(states, steps, n, u, t);
    }
    StepCalm(s, StartFlush(u), u);
    more, end := DrainsAll(Apply(s, StartFlush(u)), u, Flush(u, {}, None));
    LeadsFirst(s, StartFlush(u), more);
  }
}
