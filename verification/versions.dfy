/** A queued edit never lands over a version someone else made after it was queued. */
module Versions {
  import opened Lists
  import opened Changes
  import opened QueueWrites
  import opened Protocol
  import opened StepItems
  import Ordering

  type Log = map<string, seq<Author>>

  /** The author of version `v` of a task. */
  function MadeBy(log: Log, task: string, v: int): Option<Author> {
    if task in log && 0 < v <= |log[task]| then Some(log[task][v - 1]) else None
  }

  /** Version `v` was made by this person's own replays from this device, or found to hold an own edit. */
  predicate IsOwn(log: Log, found: set<(string, int)>, user: string, task: string, v: int) {
    (MadeBy(log, task, v).Some? && MadeBy(log, task, v).value.Replay? && MadeBy(log, task, v).value.user == user) || (task, v) in found
  }

  /** An edit queued at a version expects that one, or a later one reached over own versions only. */
  ghost predicate Continues(log: Log, found: set<(string, int)>, stamp: map<string, Option<int>>, user: string, id: string, c: Change) {
    c.TaskUpdate? && c.expectedVersion.Some? ==>
      && id in stamp && stamp[id].Some? && stamp[id].value <= c.expectedVersion.value
      && forall v :: stamp[id].value < v <= c.expectedVersion.value ==> IsOwn(log, found, user, c.id, v)
  }

  /** The author of a request's version is the request's own. */
  predicate TrueReply(log: Log, r: Request, made: Option<int>) {
    made.Some? ==> IsVersioned(r.change) && MadeBy(log, r.change.id, made.value) == Some(AuthorOf(r))
  }

  ghost predicate InvVersions(s: State) {
    && (forall x :: x in s.queue ==> Continues(s.server.versions, s.hist.found, s.hist.stamp, x.userId, x.id, x.change))
    && (forall r :: r in s.net && r.itemId.Some? ==> Continues(s.server.versions, s.hist.found, s.hist.stamp, r.user, r.itemId.value, r.change))
    && (forall r, made :: (r, made) in s.server.replies ==> TrueReply(s.server.versions, r, made))
    && (forall id :: id in s.hist.stamp ==> id in s.hist.enqueued)
  }

  /** Versions are only ever added, and keep their authors. */
  ghost predicate LogGrows(log: Log, log': Log) {
    forall task :: task in log ==> task in log' && log[task] <= log'[task]
  }

  lemma LogAfter(s: State, step: Step)
    requires Enabled(s, step)
    ensures LogGrows(s.server.versions, ServerAfter(s, step).versions)
  {
  }

  lemma MadeByGrows(log: Log, log': Log, task: string, v: int)
    requires LogGrows(log, log') && MadeBy(log, task, v).Some?
    ensures MadeBy(log', task, v) == MadeBy(log, task, v)
  {
  }

  lemma StampAfter(s: State, step: Step)
    requires Enabled(s, step)
    ensures s.hist.found <= HistoryAfter(s, step).found
    ensures HistoryAfter(s, step).stamp ==
      match Added(s, step)
      case None => s.hist.stamp
      case Some(y) => s.hist.stamp[y.id := ExpectedVersion(y.change)]
  {
  }

  lemma ContinuesGrows(log: Log, found: set<(string, int)>, stamp: map<string, Option<int>>,
      log': Log, found': set<(string, int)>, stamp': map<string, Option<int>>, user: string, id: string, c: Change)
    requires Continues(log, found, stamp, user, id, c) && LogGrows(log, log') && found <= found'
    requires id in stamp ==> id in stamp' && stamp'[id] == stamp[id]
    ensures Continues(log', found', stamp', user, id, c)
  {
    if c.TaskUpdate? && c.expectedVersion.Some? {
      forall v | stamp[id].value < v <= c.expectedVersion.value ensures IsOwn(log', found', user, c.id, v) {
        assert IsOwn(log, found, user, c.id, v);
        if MadeBy(log, c.id, v).Some? { MadeByGrows(log, log', c.id, v); }
      }
    }
  }

  /** Moving an edit on to the version an own replay made keeps it over own versions. */
  lemma RebaseContinues(log: Log, found: set<(string, int)>, stamp: map<string, Option<int>>, done: Change, made: Option<int>, x: Item)
    requires Continues(log, found, stamp, x.userId, x.id, x.change)
    requires made.Some? && IsVersioned(done) ==> IsOwn(log, found, x.userId, done.id, made.value)
    ensures Continues(log, found, stamp, x.userId, x.id, RebaseQueuedVersion(done, made, x).change)
  {
    var y := RebaseQueuedVersion(done, made, x);
    if y != x {
      assert done.id == x.change.id;
      forall v | stamp[x.id].value < v <= y.change.expectedVersion.value ensures IsOwn(log, found, x.userId, x.change.id, v) {
        if v <= x.change.expectedVersion.value { assert IsOwn(log, found, x.userId, x.change.id, v); }
      }
    }
  }

  /** The version a success write rebases on is an own one. */
  lemma RebasedOnOwn(s: State, step: Step)
    requires InvVersions(s) && Enabled(s, step) && (step.ReplayOk? || step.ReplayHeld?)
    ensures var item := CurrentItem(s).value;
      step.made.Some? && IsVersioned(item.change) ==>
        IsOwn(ServerAfter(s, step).versions, HistoryAfter(s, step).found, item.userId, item.change.id, step.made.value)
  {
    if step.ReplayOk? {
      assert TrueReply(s.server.versions, RequestOf(CurrentItem(s).value), step.made);
    }
  }

  lemma UpdateMoved(s: State, step: Step, x: Item)
    requires Enabled(s, step)
    ensures x.change.TaskUpdate? ==>
      Moved(s, step, x).change ==
        if (step.ReplayOk? || step.ReplayHeld?) && x.userId == CurrentItem(s).value.userId
        then RebaseQueuedVersion(CurrentItem(s).value.change, step.made, x).change else x.change
    ensures Moved(s, step, x).change.TaskUpdate? == x.change.TaskUpdate?
  {
    MovedKin(s, step, x);
    match step
    case SentOk(key, _) => SupersedeShape(s.live[key].user, s.live[key].change, x);
    case ReplayOk(made) => SupersedeShape(CurrentItem(s).value.userId, CurrentItem(s).value.change, x);
    case ReplayHeld(made) => SupersedeShape(CurrentItem(s).value.userId, CurrentItem(s).value.change, x);
    case _ =>
  }

  lemma ItemContinues(s: State, step: Step, x: Item)
    requires InvIds(s) && InvVersions(s) && Enabled(s, step) && x in s.queue
    ensures Continues(ServerAfter(s, step).versions, HistoryAfter(s, step).found, HistoryAfter(s, step).stamp, x.userId, x.id, Moved(s, step, x).change)
  {
    var log, found, stamp := ServerAfter(s, step).versions, HistoryAfter(s, step).found, HistoryAfter(s, step).stamp;
    LogAfter(s, step);
    StampAfter(s, step);
    if Added(s, step).Some? { NewId(s, Added(s, step).value.id); MemberHolds(s.queue, x); }
    ContinuesGrows(s.server.versions, s.hist.found, s.hist.stamp, log, found, stamp, x.userId, x.id, x.change);
    UpdateMoved(s, step, x);
    if (step.ReplayOk? || step.ReplayHeld?) && x.userId == CurrentItem(s).value.userId {
      RebasedOnOwn(s, step);
      RebaseContinues(log, found, stamp, CurrentItem(s).value.change, step.made, x);
    }
  }

  lemma AddedContinues(s: State, step: Step)
    requires Enabled(s, step) && Added(s, step).Some?
    ensures var y := Added(s, step).value;
      Continues(ServerAfter(s, step).versions, HistoryAfter(s, step).found, HistoryAfter(s, step).stamp, y.userId, y.id, y.change)
  {
    StampAfter(s, step);
  }

  lemma RequestContinues(s: State, step: Step, r: Request)
    requires InvIds(s) && InvVersions(s) && Enabled(s, step) && r in NetAfter(s, step) && r.itemId.Some?
    ensures Continues(ServerAfter(s, step).versions, HistoryAfter(s, step).found, HistoryAfter(s, step).stamp, r.user, r.itemId.value, r.change)
  {
    LogAfter(s, step);
    StampAfter(s, step);
    if r !in s.net {
      var x := s.queue[NextPick(s.queue, s.flush.value.user, s.flush.value.tried)];
      assert x in s.queue && r == RequestOf(x);
    }
    if Added(s, step).Some? && r.itemId.value in s.hist.stamp { assert r.itemId.value in s.hist.enqueued; }
    ContinuesGrows(s.server.versions, s.hist.found, s.hist.stamp,
      ServerAfter(s, step).versions, HistoryAfter(s, step).found, HistoryAfter(s, step).stamp, r.user, r.itemId.value, r.change);
  }

  lemma ReplyIsTrue(s: State, step: Step, r: Request, made: Option<int>)
    requires InvVersions(s) && Enabled(s, step) && (r, made) in ServerAfter(s, step).replies
    ensures TrueReply(ServerAfter(s, step).versions, r, made)
  {
    LogAfter(s, step);
    if (r, made) in s.server.replies {
      assert TrueReply(s.server.versions, r, made);
      if made.Some? { MadeByGrows(s.server.versions, ServerAfter(s, step).versions, r.change.id, made.value); }
    }
  }

  lemma VersionsKept(s: State, step: Step)
    requires InvIds(s) && InvVersions(s) && Enabled(s, step)
    ensures InvVersions(Apply(s, step))
  {
    var log, found, stamp := ServerAfter(s, step).versions, HistoryAfter(s, step).found, HistoryAfter(s, step).stamp;
    forall y | y in QueueAfter(s, step) ensures Continues(log, found, stamp, y.userId, y.id, y.change) {
      if Added(s, step) == Some(y) {
        AddedContinues(s, step);
      } else {
        var x := CameFrom(s, step, y);
        MovedId(s, step, x);
        ItemContinues(s, step, x);
      }
    }
    forall r | r in NetAfter(s, step) && r.itemId.Some? ensures Continues(log, found, stamp, r.user, r.itemId.value, r.change) {
      RequestContinues(s, step, r);
    }
    forall r, made | (r, made) in ServerAfter(s, step).replies ensures TrueReply(log, r, made) {
      ReplyIsTrue(s, step, r, made);
    }
    StampAfter(s, step);
    EnqueuedGrows(s, step);
  }

  lemma {:induction false} VersionInvariant(steps: seq<Step>)
    requires Run(steps).Some?
    ensures InvIds(Run(steps).value) && InvVersions(Run(steps).value)
  {
    if steps != [] {
      var s, last := Run(steps[..|steps| - 1]).value, steps[|steps| - 1];
      VersionInvariant(steps[..|steps| - 1]);
      IdsKept(s, last);
      VersionsKept(s, last);
    }
  }

  /**
    * Version safety: in every run, whatever other writers do, when the server accepts a queued edit,
    * every version after the one it was queued at was made by this person's own replays, or found by
    * the conflict check to hold an own edit.
    */
  lemma VersionSafety(steps: seq<Step>, r: Request)
    requires Run(steps).Some? && Enabled(Run(steps).value, Accept(r))
    requires r.itemId.Some? && r.change.TaskUpdate? && r.change.expectedVersion.Some?
    ensures var s := Run(steps).value;
      && r.itemId.value in s.hist.stamp && s.hist.stamp[r.itemId.value].Some?
      && (forall v :: s.hist.stamp[r.itemId.value].value < v <= VersionOf(s, r.change.id) ==>
            IsOwn(s.server.versions, s.hist.found, r.user, r.change.id, v))
  {
    VersionInvariant(steps);
    var s := Run(steps).value;
    assert Continues(s.server.versions, s.hist.found, s.hist.stamp, r.user, r.itemId.value, r.change);
  }

  // ---- From the version an edit was made at ---------------------------------------------------------

  /** An edit is queued at the version it was made at, or raised to a newer one that a waiting edit expects. */
  ghost predicate InvMade(s: State) {
    forall id :: id in s.hist.stamp ==>
      && id in s.hist.madeAt && id in s.hist.enqueued
      && (s.hist.madeAt[id].Some? ==> s.hist.stamp[id].Some? && s.hist.madeAt[id].value <= s.hist.stamp[id].value)
  }

  lemma MadeAfter(s: State, step: Step)
    requires Enabled(s, step)
    ensures match Added(s, step)
      case None => HistoryAfter(s, step).stamp == s.hist.stamp && HistoryAfter(s, step).madeAt == s.hist.madeAt
      case Some(y) =>
        && HistoryAfter(s, step).stamp == s.hist.stamp[y.id := ExpectedVersion(y.change)]
        && HistoryAfter(s, step).madeAt == s.hist.madeAt[y.id := ExpectedVersion(if step.QueueBehind? then step.change else y.change)]
  {
  }

  lemma MadeKept(s: State, step: Step)
    requires InvMade(s) && Enabled(s, step)
    ensures InvMade(Apply(s, step))
  {
    EnqueuedGrows(s, step);
    MadeAfter(s, step);
    if step.QueueBehind? && step.change.TaskUpdate? {
      BehindIsNewest(WaitingWrites(s.queue, step.user, step.change), step.change);
    }
  }

  lemma {:induction false} MadeInvariant(steps: seq<Step>)
    requires Run(steps).Some?
    ensures InvMade(Run(steps).value)
  {
    if steps != [] {
      MadeInvariant(steps[..|steps| - 1]);
      MadeKept(Run(steps[..|steps| - 1]).value, steps[|steps| - 1]);
    }
  }

  /** Every version after `from`, up to `to`, is an own one. */
  ghost predicate OwnBetween(s: State, user: string, task: string, from: int, to: int) {
    forall v :: from < v <= to ==> IsOwn(s.server.versions, s.hist.found, user, task, v)
  }

  /**
    * An accepted edit lands over own versions only, from the one it was made at, if and only if those it was raised
    * over when it was queued behind a waiting edit are own ones.
    */
  lemma SafeSinceMade(steps: seq<Step>, r: Request)
    requires Run(steps).Some? && Enabled(Run(steps).value, Accept(r))
    requires r.itemId.Some? && r.change.TaskUpdate? && r.change.expectedVersion.Some?
    ensures var s, id, t := Run(steps).value, r.itemId.value, r.change.id;
      && id in s.hist.stamp && s.hist.stamp[id].Some? && id in s.hist.madeAt
      && (s.hist.madeAt[id].Some? ==>
            var made, stamp := s.hist.madeAt[id].value, s.hist.stamp[id].value;
            made <= stamp && (OwnBetween(s, r.user, t, made, VersionOf(s, t)) <==> OwnBetween(s, r.user, t, made, stamp)))
  {
    VersionSafety(steps, r);
    MadeInvariant(steps);
    StampReached(steps, r);
  }

  lemma StampReached(steps: seq<Step>, r: Request)
    requires Run(steps).Some? && Enabled(Run(steps).value, Accept(r))
    requires r.itemId.Some? && r.change.TaskUpdate? && r.change.expectedVersion.Some?
    ensures var s, id := Run(steps).value, r.itemId.value;
      id in s.hist.stamp && s.hist.stamp[id].Some? && s.hist.stamp[id].value <= VersionOf(s, r.change.id)
  {
    VersionInvariant(steps);
    var s := Run(steps).value;
    assert Continues(s.server.versions, s.hist.found, s.hist.stamp, r.user, r.itemId.value, r.change);
  }

  // ---- A run in which it is raised over others' --------------------------------------------------------

  function EditAt(id: string, key: string, version: int): Item {
    NewItem(id, TaskUpdate("t", map[], Some(version)), "u", key)
  }

  /** What the two edits' run is about: the queue, the flush, the task's authors, and the versions `b` was made and queued at. */
  ghost predicate Shows(s: State, queue: Queue, flush: Option<Flush>, authors: seq<Author>) {
    && s.queue == queue && s.flush == flush && s.hist.found == {}
    && "t" in s.server.versions && s.server.versions["t"] == authors
  }

  ghost predicate RaisedOver(s: State) {
    "b" in s.hist.stamp && s.hist.stamp["b"] == Some(1) && "b" in s.hist.madeAt && s.hist.madeAt["b"] == Some(0)
  }

  lemma MadeElsewhere() returns (steps: seq<Step>)
    ensures Run(steps).Some? && Shows(Run(steps).value, [], None, [Elsewhere])
    ensures var s := Run(steps).value; s.hist.keys == map[] && s.hist.enqueued == {} && s.live == map[]
  {
    RunSnoc([], WriteElsewhere("t"));
    steps := [] + [WriteElsewhere("t")];
    assert [] + [Elsewhere] == [Elsewhere];
  }

  /** Somebody else makes the first version; an edit made of it is kept for later. */
  lemma KeptAtOne() returns (steps: seq<Step>)
    ensures Run(steps).Some? && Shows(Run(steps).value, [EditAt("a", "k", 1)], None, [Elsewhere])
    ensures Run(steps).value.hist.keys.Keys == {"k"} && Run(steps).value.hist.enqueued == {"a"}
  {
    var c := EditAt("a", "k", 1).change;
    steps := MadeElsewhere();
    RunSnoc(steps, SendNow("u", c, "k"));
    steps := steps + [SendNow("u", c, "k")];
    RunSnoc(steps, SentKept("k", "a"));
    steps := steps + [SentKept("k", "a")];
  }

  /** Another one, made of a copy from before that, is queued behind it and raised over that version. */
  lemma RaisedToOne() returns (steps: seq<Step>)
    ensures Run(steps).Some? && Shows(Run(steps).value, [EditAt("a", "k", 1), EditAt("b", "l", 1)], None, [Elsewhere])
    ensures RaisedOver(Run(steps).value)
  {
    steps := KeptAtOne();
    var step := QueueBehind("u", EditAt("b", "l", 0).change, "l", "b");
    RaisedChange();
    RaisesIt(Run(steps).value, step);
    RunSnoc(steps, step);
    steps := steps + [step];
  }

  lemma RaisedChange()
    ensures var q, c := [EditAt("a", "k", 1)], TaskUpdate("t", map[], Some(0));
      WaitingWrites(q, "u", c) == q && Behind(q, c) == TaskUpdate("t", map[], Some(1))
  {
    var a := EditAt("a", "k", 1);
    Ordering.WaitingOne(a, "u", TaskUpdate("t", map[], Some(0)));
    assert [a][..0] == [];
  }

  lemma RaisesIt(s: State, step: Step)
    requires Shows(s, [EditAt("a", "k", 1)], None, [Elsewhere]) && s.hist.keys.Keys == {"k"} && s.hist.enqueued == {"a"}
    requires step == QueueBehind("u", TaskUpdate("t", map[], Some(0)), "l", "b")
    requires WaitingWrites(s.queue, "u", step.change) == s.queue && Behind(s.queue, step.change) == TaskUpdate("t", map[], Some(1))
    ensures Enabled(s, step) && RaisedOver(Apply(s, step))
    ensures Shows(Apply(s, step), [EditAt("a", "k", 1), EditAt("b", "l", 1)], None, [Elsewhere])
  {
  }

  /** A flush sends the first one. */
  lemma FirstSent() returns (steps: seq<Step>)
    ensures Run(steps).Some? && RaisedOver(Run(steps).value) && RequestOf(EditAt("a", "k", 1)) in Run(steps).value.net
    ensures var a := EditAt("a", "k", 1);
      Shows(Run(steps).value, [a, EditAt("b", "l", 1)], Some(Flush("u", {"a"}, Some(a))), [Elsewhere])
  {
    steps := RaisedToOne();
    RunSnoc(steps, StartFlush("u"));
    steps := steps + [StartFlush("u")];
    assert CanPick("u", {}, EditAt("a", "k", 1));
    assert {} + {"a"} == {"a"};
    RunSnoc(steps, Pick);
    steps := steps + [Pick];
  }

  /** It lands. */
  lemma FirstLands() returns (steps: seq<Step>)
    ensures Run(steps).Some? && RaisedOver(Run(steps).value) && (RequestOf(EditAt("a", "k", 1)), Some(2)) in Run(steps).value.server.replies
    ensures var a := EditAt("a", "k", 1);
      Shows(Run(steps).value, [a, EditAt("b", "l", 1)], Some(Flush("u", {"a"}, Some(a))), [Elsewhere, Replay("u", "a")])
  {
    steps := FirstSent();
    var r := RequestOf(EditAt("a", "k", 1));
    RunSnoc(steps, Accept(r));
    steps := steps + [Accept(r)];
    assert [Elsewhere] + [Replay("u", "a")] == [Elsewhere, Replay("u", "a")];
  }

  /** The success write moves the second one on. */
  lemma SecondMovedOn()
    ensures AfterSuccess([EditAt("a", "k", 1), EditAt("b", "l", 1)], EditAt("a", "k", 1), Some(2)) == [EditAt("b", "l", 2)]
  {
    var a, b := EditAt("a", "k", 1), EditAt("b", "l", 1);
    AfterSuccessIs([a, b], a, Some(2));
    SupersedeShape("u", a.change, b);
    var moved := Mapped([a, b], Settling([a, b], a, Some(2)));
    assert moved[1] == Settled([a, b], a, Some(2), b) == EditAt("b", "l", 2);
    SettledShape([a, b], a, Some(2), a);
    assert moved == [moved[0], moved[1]];
    FirstGone(moved[0], moved[1]);
  }

  lemma FirstGone(x: Item, y: Item)
    requires x.id != y.id
    ensures Without([x, y], x.id) == [y]
  {
    FilterConcat([x], [y], OtherThan(x.id));
    assert [x] + [y] == [x, y];
    assert Filter([x], OtherThan(x.id)) == [] by { assert [x][..0] == []; }
    assert Filter([y], OtherThan(x.id)) == [y] by { assert [y][..0] == []; }
  }

  /** Then it lands, over a version somebody else made after the copy it was made of. */
  lemma LandsOverOthers() returns (steps: seq<Step>, r: Request)
    ensures Run(steps).Some? && Enabled(Run(steps).value, Accept(r)) && r.itemId == Some("b") && r.user == "u"
    ensures r.change.TaskUpdate? && r.change.id == "t" && r.change.expectedVersion == Some(2)
    ensures var s := Run(steps).value;
      "b" in s.hist.madeAt && s.hist.madeAt["b"] == Some(0) && !OwnBetween(s, "u", "t", 0, VersionOf(s, "t"))
  {
    steps := SecondSent();
    r := RequestOf(EditAt("b", "l", 2));
    var s := Run(steps).value;
    assert !IsOwn(s.server.versions, s.hist.found, "u", "t", 1);
  }

  lemma SecondSent() returns (steps: seq<Step>)
    ensures Run(steps).Some? && RaisedOver(Run(steps).value) && RequestOf(EditAt("b", "l", 2)) in Run(steps).value.net
    ensures var s := Run(steps).value; s.hist.found == {} && "t" in s.server.versions && s.server.versions["t"] == [Elsewhere, Replay("u", "a")]
  {
    steps := FirstLands();
    SecondMovedOn();
    RunSnoc(steps, ReplayOk(Some(2)));
    steps := steps + [ReplayOk(Some(2))];
    assert CanPick("u", {"a"}, EditAt("b", "l", 2));
    RunSnoc(steps, Pick);
    steps := steps + [Pick];
  }

  /** An edit queued behind others continues from the newest version any of them, or itself, expects. */
  lemma {:induction false} BehindIsNewest(waiting: Queue, change: Change)
    requires change.TaskUpdate?
    ensures var e := Behind(waiting, change).expectedVersion;
      && (forall x :: x in waiting && ExpectedVersion(x.change).Some? ==> e.Some? && ExpectedVersion(x.change).value <= e.value)
      && (change.expectedVersion.Some? ==> e.Some? && change.expectedVersion.value <= e.value)
      && (e == change.expectedVersion || exists x :: x in waiting && ExpectedVersion(x.change) == e)
  {
    NewestIsNewest(waiting);
  }

  lemma {:induction false} NewestIsNewest(q: Queue)
    ensures var e := NewestExpected(q);
      && (forall x :: x in q && ExpectedVersion(x.change).Some? ==> e.Some? && ExpectedVersion(x.change).value <= e.value)
      && (e.Some? ==> exists x :: x in q && ExpectedVersion(x.change) == e)
  {
    if q != [] {
      var init, last := q[..|q| - 1], q[|q| - 1];
      NewestIsNewest(init);
      assert q == init + [last];
      assert last in q && forall x :: x in init ==> x in q;
    }
  }
}
