/**
  * The stored queue and the operations on it (Extension/src/queue.js). Each method is one holder of the
  * queue lock, or, for a flush, of the flush lock; what other tabs do in between is in `Protocol`.
  */
module SyncQueues {
  import opened Lists
  import opened Edits
  import opened Changes
  import opened QueueWrites
  import opened Replays
  import Versions

  /** How a change sent by a screen ends. */
  datatype SendResult =
    | Sent(made: Option<int>)
    | Queued(item: Item, syncNow: bool)
    | Held(key: string)
    | Rejected(status: int, code: string)
    | NotSaved

  datatype FlushResult = FlushResult(synced: nat, failed: nat, remaining: nat, paused: bool, skipped: bool)

  /** The statuses for which a change is kept for later instead of reported. */
  const QUEUE_ON_STATUS := {401, 408, 429, 502, 503, 504}

  /** What a change sent now comes to: done, done already, refused for the person to see, or to be kept for later. */
  datatype LiveAnswer = Success(made: Option<int>) | Gone | Refusal(status: int, code: string) | Kept

  function AnswerOf(c: Change, res: Response): LiveAnswer {
    if res.NoAnswer? then Kept
    else if IsOk(res) then (if IsReadable(res) then Success(if res.status == 204 then None else VersionIn(res.data)) else Kept)
    else if res.status in QUEUE_ON_STATUS then Kept
    else if AlreadyGone(c, res.status, res.code) then Gone
    else Refusal(res.status, res.code)
  }

  /** The same, with the read of the task's tags before it. */
  function SentNow(c: Change, tags: Response, sent: Response): LiveAnswer {
    if !ReadsTagsFirst(c) then AnswerOf(c, sent)
    else if tags.NoAnswer? then Kept
    else if !IsOk(tags) then AnswerOf(c, tags)
    else if NamesIn(tags).None? then Kept
    else AnswerOf(c, sent)
  }

  /** What the screen is told. */
  function Told(a: LiveAnswer, c: Change, user: string, key: string, hold: bool, newId: string, writes: bool): SendResult {
    match a
    case Success(made) => Sent(made)
    case Gone => Sent(None)
    case Refusal(status, code) => Rejected(status, code)
    case Kept => if hold then Held(key) else if user != "" && writes then Queued(NewItem(newId, c, user, key), false) else NotSaved
  }

  /** What it does to the queue: an older change replaced by a success is superseded, a kept one goes last. */
  function AfterSending(q: Queue, r: SendResult, a: LiveAnswer, c: Change, user: string, writes: bool): Queue {
    if r.Queued? then q + [r.item]
    else if a.Success? && user != "" && IsOrdered(c) && writes then SupersedeOlder(q, None, user, c)
    else q
  }

  /**
    * Sending now and replaying later agree: what succeeds now would sync, at the same version; what is
    * kept would only wait or be tried again; and no edit refused for its version is kept.
    */
  lemma SendingAgreesWithReplay(c: Change, tags: Response, sent: Response, reload: Response)
    ensures match SentNow(c, tags, sent)
      case Success(made) => Perform(c, tags, sent, reload) == Synced(made)
      case Gone => Perform(c, tags, sent, reload) == Synced(None)
      case Kept => Perform(c, tags, sent, reload).Stopped? && Perform(c, tags, sent, reload).outcome != Fail
      case Refusal(status, code) =>
        Perform(c, tags, sent, reload).Synced? ==> c.TaskUpdate? && status == 409 && code == VERSION_CONFLICT
  {
  }

  /** The ids of this person's items still to send, oldest first. */
  function WaitingIds(q: Queue, user: string): seq<string> {
    if q == [] then []
    else
      var rest := WaitingIds(q[..|q| - 1], user);
      if IsWaiting(user, q[|q| - 1]) then rest + [q[|q| - 1].id] else rest
  }

  /** Whether a waiting change of this person has failed a try already. */
  predicate Retrying(q: Queue, user: string) {
    exists n :: 0 <= n < |q| && IsWaiting(user, q[n]) && q[n].attempts > 0
  }

  /** The newest version that the edit, or a waiting change it must follow, expects. */
  predicate IsNewest(newest: Option<int>, q: Queue, user: string, edit: Change) {
    && (forall x :: x in q && WaitsFor(user, edit, x) && ExpectedVersion(x.change).Some? ==>
          newest.Some? && ExpectedVersion(x.change).value <= newest.value)
    && (ExpectedVersion(edit).Some? ==> newest.Some? && ExpectedVersion(edit).value <= newest.value)
    && (newest == ExpectedVersion(edit) || exists x :: x in q && WaitsFor(user, edit, x) && ExpectedVersion(x.change) == newest)
  }

  function IdsOf(sent: seq<Item>): set<string> {
    set n | 0 <= n < |sent| :: sent[n].id
  }

  lemma NextId(sent: seq<Item>, item: Item)
    ensures IdsOf(sent + [item]) == IdsOf(sent) + {item.id}
  {
    var now := sent + [item];
    forall a | a in IdsOf(sent) + {item.id} ensures a in IdsOf(now) {
      if a == item.id {
        assert now[|sent|].id == a;
      } else {
        var n :| 0 <= n < |sent| && sent[n].id == a;
        assert now[n].id == a;
      }
    }
  }

  predicate FewTries(q: Queue, maxAttempts: nat) {
    forall n :: 0 <= n < |q| && q[n].status == Pending ==> q[n].attempts < maxAttempts
  }

  class SyncQueue {
    var queue: Queue

    constructor ()
      ensures queue == []
    {
      queue := [];
    }

    /** Queue a change of this person; without one it is refused, and when the write fails nothing is queued. */
    method Enqueue(change: Change, userId: string, key: string, newId: string, writes: bool) returns (queued: Option<Item>)
      modifies this
      ensures queued == if userId != "" && writes then Some(NewItem(newId, change, userId, key)) else None
      ensures queue == old(queue) + (if queued.Some? then [queued.value] else [])
    {
      if userId == "" || !writes {
        return None;
      }
      queued := Some(NewItem(newId, change, userId, key));
      queue := queue + [queued.value];
    }

    /** Queue a change behind this person's waiting ones that it must follow, if there are any and the write succeeds. */
    method EnqueueBehind(change: Change, userId: string, key: string, newId: string, writes: bool) returns (queued: Option<(Item, bool)>)
      modifies this
      ensures queued.Some? <==> writes && userId != "" && IsOrdered(change) && exists x :: x in old(queue) && WaitsFor(userId, change, x)
      ensures queued.None? ==> queue == old(queue)
      ensures queued.Some? ==>
        var (item, syncNow) := queued.value;
        && queue == old(queue) + [item]
        && item == NewItem(newId, item.change, userId, key)
        && KinChange(item.change, change)
        && (syncNow <==> !Retrying(old(queue), userId))
        && (change.TaskUpdate? ==> item.change == change.(expectedVersion := ExpectedVersion(item.change)))
        && (!change.TaskUpdate? ==> item.change == change)
        && (change.TaskUpdate? ==> IsNewest(ExpectedVersion(item.change), old(queue), userId, change))
    {
      if userId == "" || !IsOrdered(change) {
        return None;
      }
      var waiting := WaitingWrites(queue, userId, change);
      WaitingFound(queue, userId, change);
      if waiting == [] || !writes {
        return None;
      }
      BehindFollows(queue, userId, change);
      var item := NewItem(newId, Behind(waiting, change), userId, key);
      var retrying := Retrying(queue, userId);
      queue := queue + [item];
      queued := Some((item, !retrying));
    }

    /** Retry: back in line under the same key, or a new one after a refusal; not when a later change replaced it. */
    method RetryQueued(id: string, freshKey: string)
      requires UniqueIds(queue)
      modifies this
      ensures |queue| == |old(queue)|
      ensures forall n :: 0 <= n < |queue| ==>
        var was, now := old(queue)[n], queue[n];
        if was.id != id || was.superseded then now == was
        else
          && now.status == Pending && now.attempts == 0 && now.lastStatus == None
          && now.change == was.change && now.id == was.id && now.userId == was.userId && !now.superseded
          && Origin(now) == Origin(was)
          && (now.idempotencyKey == if WasRefused(was) then freshKey else was.idempotencyKey)
    {
      queue := AfterRetry(queue, id, freshKey);
    }

    /** Discard one item. */
    method RemoveQueued(id: string)
      requires UniqueIds(queue)
      modifies this
      ensures queue == Without(old(queue), id)
      ensures UniqueIds(queue) && !Holds(queue, id)
      ensures forall x :: x in queue <==> x in old(queue) && x.id != id
    {
      WithoutUnique(queue, id);
      FilterMembers(queue, OtherThan(id));
      queue := Without(queue, id);
    }

    /**
      * A change sent now has succeeded: every older one of this person's that it replaced is blocked or trimmed.
      * Nothing is written when there is none; a write that fails is given up.
      */
    method SupersedeQueued(userId: string, done: Change, writes: bool) returns (wrote: bool)
      modifies this
      ensures wrote <==> writes && exists x :: x in old(queue) && Supersede(userId, done, x) != x
      ensures queue == if wrote then SupersedeOlder(old(queue), None, userId, done) else old(queue)
      ensures writes ==> queue == SupersedeOlder(old(queue), None, userId, done)
    {
      var changes := exists n :: 0 <= n < |queue| && Supersede(userId, done, queue[n]) != queue[n];
      if !changes {
        assert SupersedeOlder(queue, None, userId, done) == queue;
        return false;
      }
      if writes {
        queue := SupersedeOlder(queue, None, userId, done);
      }
      return writes;
    }

    /**
      * Send a change now, or keep it for later under the same key: behind the waiting changes it must
      * follow, or because it got no usable answer. `behindWrites` and `writes` say whether the storage takes
      * the two queue writes.
      */
    method SendOrQueue(change: Change, userId: string, key: string, hold: bool, tags: Response, sent: Response,
        newId: string, behindWrites: bool, writes: bool) returns (r: SendResult)
      modifies this
      ensures var waits := exists x :: x in old(queue) && WaitsFor(userId, change, x);
        if userId != "" && IsOrdered(change) && !hold && behindWrites && waits then
          r.Queued? && r.item.idempotencyKey == key && (r.syncNow <==> !Retrying(old(queue), userId)) && queue == old(queue) + [r.item]
          && r.item == NewItem(newId, r.item.change, userId, key)
          && r.item.change == (if change.TaskUpdate? then change.(expectedVersion := ExpectedVersion(r.item.change)) else change)
          && (change.TaskUpdate? ==> IsNewest(ExpectedVersion(r.item.change), old(queue), userId, change))
        else
          r == Told(SentNow(change, tags, sent), change, userId, key, hold, newId, writes)
          && queue == AfterSending(old(queue), r, SentNow(change, tags, sent), change, userId, writes)
    {
      if userId != "" && IsOrdered(change) && !hold {
        var behind := EnqueueBehind(change, userId, key, newId, behindWrites);
        if behind.Some? {
          return Queued(behind.value.0, behind.value.1);
        }
      }
      r := SendIt(change, userId, key, hold, tags, sent, newId, writes);
    }

    /** Send a change now; keep it for later when that gets no usable answer. */
    method SendIt(change: Change, userId: string, key: string, hold: bool, tags: Response, sent: Response,
        newId: string, writes: bool) returns (r: SendResult)
      modifies this
      ensures r == Told(SentNow(change, tags, sent), change, userId, key, hold, newId, writes)
      ensures queue == AfterSending(old(queue), r, SentNow(change, tags, sent), change, userId, writes)
    {
      var res := sent;
      if ReadsTagsFirst(change) {
        if tags.NoAnswer? || (IsOk(tags) && NamesIn(tags).None?) {
          r := QueueIt(change, userId, key, hold, newId, writes);
          return;
        }
        if !IsOk(tags) {
          res := tags;
        }
      }
      if res.NoAnswer? || (IsOk(res) && !IsReadable(res)) || (!IsOk(res) && res.status in QUEUE_ON_STATUS) {
        r := QueueIt(change, userId, key, hold, newId, writes);
        return;
      }
      if IsOk(res) {
        if userId != "" && IsOrdered(change) {
          var wrote := SupersedeQueued(userId, change, writes);
        }
        return Sent(if res.status == 204 then None else VersionIn(res.data));
      }
      if AlreadyGone(change, res.status, res.code) {
        return Sent(None);
      }
      return Rejected(res.status, res.code);
    }

    /**
      * Replay this person's waiting changes, oldest first, one flusher at a time; `ReplyAt(world, n)` is how the
      * `n`-th replay ends. `sent` lists the items replayed.
      */
    method FlushQueue(userId: string, world: seq<Reply>, maxAttempts: nat, free: bool) returns (result: FlushResult, sent: seq<Item>)
      requires UniqueIds(queue)
      modifies this
      ensures UniqueIds(queue)
      ensures userId == "" || !free ==> sent == [] && queue == old(queue) && result.synced == result.failed == 0 && !result.paused
      ensures result.skipped <==> userId != "" && !free
      ensures userId != "" ==> result.remaining == |WaitingIds(queue, userId)|
      ensures userId != "" && free ==> Flushed(old(queue), queue, userId, world, maxAttempts, result, sent)
    {
      if userId == "" {
        return FlushResult(0, 0, 0, false, false), [];
      }
      if !free {
        return FlushResult(0, 0, |WaitingIds(queue, userId)|, false, true), [];
      }
      var synced, failed, paused;
      synced, failed, paused, sent := ReplayWaiting(userId, world, maxAttempts);
      result := FlushResult(synced, failed, |WaitingIds(queue, userId)|, paused, false);
    }

    /** The flush itself, under the flush lock. */
    method ReplayWaiting(userId: string, world: seq<Reply>, maxAttempts: nat)
      returns (synced: nat, failed: nat, paused: bool, sent: seq<Item>)
      requires UniqueIds(queue)
      modifies this
      ensures Flushed(old(queue), queue, userId, world, maxAttempts, FlushResult(synced, failed, |WaitingIds(queue, userId)|, paused, false), sent)
    {
      sent, synced, failed, paused := [], 0, 0, false;
      var tried: set<string> := {};
      while true
        invariant !paused && synced + failed == |sent| && |queue| == |old(queue)| - synced
        invariant Progress(old(queue), queue, userId, world, maxAttempts, sent) && tried == IdsOf(sent)
        decreases |WaitingIds(queue, userId)|
      {
        FirstWaiting(old(queue), queue, userId, world, maxAttempts, sent, tried);
        var at := NextPick(queue, userId, tried);
        if at == |queue| {
          FlushDone(old(queue), queue, userId, world, maxAttempts, sent, synced, failed, paused, sent);
          break;
        }
        var item, reply := queue[at], ReplyAt(world, |sent|);
        ReplayStep(old(queue), queue, userId, world, maxAttempts, sent, at, synced, failed);
        NextId(sent, item);
        tried, sent := tried + {item.id}, sent + [item];
        var end := Answered(item, reply, maxAttempts);
        if end == Waits {
          paused := true;
          break;
        }
        if end == Done { synced := synced + 1; } else { failed := failed + 1; }
      }
    }

    /** The queue write a replay's answer leads to, and how the item ends. */
    method Answered(item: Item, reply: Reply, maxAttempts: nat) returns (end: End)
      modifies this
      ensures end == EndOf(item, reply, maxAttempts) && queue == AfterReply(old(queue), item, reply, maxAttempts)
    {
      match reply
      case Stopped(status, outcome) =>
        if outcome == Pause {
          return Waits;
        }
        var gaveUp := outcome == Fail;
        if item.attempts + 1 >= maxAttempts {
          gaveUp := true;
        }
        queue := AfterFailure(queue, item.id, status, outcome == Fail, maxAttempts);
        end := if gaveUp then GivenUp else Waits;
      case Synced(made) =>
        queue := AfterSuccess(queue, item, made);
        end := Done;
    }

    /** Keep a change that got no usable answer; `hold` never queues. */
    method QueueIt(change: Change, userId: string, key: string, hold: bool, newId: string, writes: bool) returns (r: SendResult)
      modifies this
      ensures hold ==> r == Held(key) && queue == old(queue)
      ensures !hold && (userId == "" || !writes) ==> r == NotSaved && queue == old(queue)
      ensures !hold && userId != "" && writes ==>
        r == Queued(NewItem(newId, change, userId, key), false) && queue == old(queue) + [r.item]
    {
      if hold {
        return Held(key);
      }
      var queued := Enqueue(change, userId, key, newId, writes);
      r := if queued.Some? then Queued(queued.value, false) else NotSaved;
    }
  }

  // ---- What a flush comes to --------------------------------------------------------------------

  /** How the n-th replay ends; without an answer of its own, the server is out of reach. */
  function ReplyAt(world: seq<Reply>, n: nat): Reply {
    if n < |world| then world[n] else Stopped(None, Pause)
  }

  /** How far a flush has come: it has sent the first waiting items, in order; those that synced are gone, the others failed. */
  ghost predicate Progress(q0: Queue, q: Queue, user: string, world: seq<Reply>, maxAttempts: nat, sent: seq<Item>) {
    && UniqueIds(q)
    && |sent| <= |WaitingIds(q0, user)|
    && (forall n :: 0 <= n < |sent| ==> sent[n].id == WaitingIds(q0, user)[n])
    && (forall n :: 0 <= n < |sent| ==> Ended(q, sent[n].id, ReplyAt(world, n)))
    && WaitingIds(q0, user)[..|sent|] + WaitingIds(q, user) == WaitingIds(q0, user)
    && Filter(q, NotOf(user)) == Filter(q0, NotOf(user))
    && (FewTries(q0, maxAttempts) ==> FewTries(q, maxAttempts))
  }

  /** How one replayed item ends. */
  datatype End = Done | GivenUp | Waits

  function EndOf(item: Item, reply: Reply, maxAttempts: nat): End {
    match reply
    case Synced(_) => Done
    case Stopped(_, outcome) =>
      if outcome == Fail || (outcome != Pause && item.attempts + 1 >= maxAttempts) then GivenUp else Waits
  }

  function AfterReply(q: Queue, item: Item, reply: Reply, maxAttempts: nat): Queue {
    match reply
    case Synced(made) => AfterSuccess(q, item, made)
    case Stopped(status, outcome) =>
      if outcome == Pause then q else AfterFailure(q, item.id, status, outcome == Fail, maxAttempts)
  }

  /** A synced item is gone, another one is there, marked failed. */
  predicate Ended(q: Queue, id: string, reply: Reply) {
    if reply.Synced? then !Holds(q, id) else Holds(q, id) && q[IndexOf(q, id)].status == Failed
  }

  /**
    * A flush is done: every waiting item was sent once, oldest first, or the flush paused at one that still
    * waits, first in line; the counts are those of the queue's change; other people's items are as they were.
    */
  ghost predicate Flushed(q0: Queue, q: Queue, user: string, world: seq<Reply>, maxAttempts: nat, result: FlushResult, sent: seq<Item>) {
    var done := |sent| - (if result.paused then 1 else 0);
    && 0 <= done
    && Progress(q0, q, user, world, maxAttempts, sent[..done])
    && result.synced + result.failed == done && |q| == |q0| - result.synced
    && (if result.paused then
          WaitingIds(q, user) != [] && sent[done].id == WaitingIds(q, user)[0]
          && ReplyAt(world, done).Stopped? && ReplyAt(world, done).outcome != Fail
        else WaitingIds(q, user) == [])
  }

  lemma {:induction false} WaitingIdsMapped(q: Queue, r: Queue, user: string)
    requires SameIds(q, r) && forall n :: 0 <= n < |q| ==> (IsWaiting(user, q[n]) <==> IsWaiting(user, r[n]))
    ensures WaitingIds(r, user) == WaitingIds(q, user)
  {
    if q != [] {
      WaitingIdsMapped(q[..|q| - 1], r[..|r| - 1], user);
    }
  }

  lemma {:induction false} NoneWaiting(q: Queue, user: string)
    requires forall n :: 0 <= n < |q| ==> !IsWaiting(user, q[n])
    ensures WaitingIds(q, user) == []
  {
    if q != [] {
      NoneWaiting(q[..|q| - 1], user);
    }
  }

  lemma {:induction false} WaitingIdsFirst(q: Queue, user: string, at: nat)
    requires at < |q| && IsWaiting(user, q[at]) && forall n :: 0 <= n < at ==> !IsWaiting(user, q[n])
    ensures WaitingIds(q, user) != [] && WaitingIds(q, user)[0] == q[at].id
  {
    if at == |q| - 1 {
      NoneWaiting(q[..at], user);
    } else {
      WaitingIdsFirst(q[..|q| - 1], user, at);
    }
  }

  /** The first waiting item marked failed: the others wait on. */
  lemma {:induction false} WaitingIdsFailed(q: Queue, r: Queue, user: string, at: nat)
    requires SameIds(q, r) && at < |q| && IsWaiting(user, q[at]) && forall n :: 0 <= n < at ==> !IsWaiting(user, q[n])
    requires forall n :: 0 <= n < |q| ==> (IsWaiting(user, r[n]) <==> IsWaiting(user, q[n]) && n != at)
    ensures WaitingIds(q, user) != [] && WaitingIds(r, user) == WaitingIds(q, user)[1..]
  {
    WaitingIdsFirst(q, user, at);
    if at == |q| - 1 {
      NoneWaiting(q[..at], user);
      NoneWaiting(r[..at], user);
    } else {
      WaitingIdsFirst(q[..|q| - 1], user, at);
      WaitingIdsFailed(q[..|q| - 1], r[..|r| - 1], user, at);
    }
  }

  /** The first waiting item taken out: the others wait on. */
  lemma {:induction false} WaitingIdsWithout(q: Queue, user: string, at: nat)
    requires UniqueIds(q)
    requires at < |q| && IsWaiting(user, q[at]) && forall n :: 0 <= n < at ==> !IsWaiting(user, q[n])
    ensures WaitingIds(q, user) != [] && WaitingIds(Without(q, q[at].id), user) == WaitingIds(q, user)[1..]
  {
    var init, last, id := q[..|q| - 1], q[|q| - 1], q[at].id;
    WaitingIdsFirst(q, user, at);
    if at == |q| - 1 {
      NoneWaiting(init, user);
      forall x | x in init ensures OtherThan(id)(x) {
        var n :| 0 <= n < |init| && init[n] == x;
        assert q[n].id != q[at].id;
      }
      FilterAll(init, OtherThan(id));
    } else {
      WaitingIdsFirst(init, user, at);
      WaitingIdsWithout(init, user, at);
      var rest := Without(init, id);
      assert (rest + [last])[..|rest|] == rest;
    }
  }

  lemma LastIsOther(init: Queue, last: Item)
    requires UniqueIds(init + [last])
    ensures forall x :: x in init ==> OtherThan(last.id)(x)
  {
    var q := init + [last];
    forall x | x in init ensures OtherThan(last.id)(x) {
      var n :| 0 <= n < |init| && init[n] == x;
      assert q[n].id != q[|q| - 1].id;
    }
  }

  lemma {:induction false} WithoutLength(q: Queue, id: string)
    requires UniqueIds(q) && Holds(q, id)
    ensures |Without(q, id)| == |q| - 1
  {
    var init, last := q[..|q| - 1], q[|q| - 1];
    assert q == init + [last];
    IndexAppend(init, last, id);
    if last.id == id {
      LastIsOther(init, last);
      FilterAll(init, OtherThan(id));
    } else {
      WithoutLength(init, id);
    }
  }

  /** What a flush has tried doesn't wait, so the next pick is the first that does. */
  lemma FirstWaiting(q0: Queue, q: Queue, user: string, world: seq<Reply>, maxAttempts: nat, sent: seq<Item>, tried: set<string>)
    requires Progress(q0, q, user, world, maxAttempts, sent) && tried == IdsOf(sent)
    ensures var at := NextPick(q, user, tried);
      && (forall n :: 0 <= n < at ==> !IsWaiting(user, q[n]))
      && (if at == |q| then WaitingIds(q, user) == []
          else IsWaiting(user, q[at]) && WaitingIds(q, user) != [] && WaitingIds(q, user)[0] == q[at].id)
  {
    var at := NextPick(q, user, tried);
    forall n | 0 <= n < |q| && q[n].id in tried ensures !IsWaiting(user, q[n]) {
      IndexAt(q, n);
      var m :| 0 <= m < |sent| && sent[m].id == q[n].id;
      assert Ended(q, sent[m].id, ReplyAt(world, m));
    }
    forall n | 0 <= n < at ensures !IsWaiting(user, q[n]) {
      assert !CanPick(user, tried, q[n]);
    }
    if at == |q| { NoneWaiting(q, user); } else { WaitingIdsFirst(q, user, at); }
  }

  /** A flush is about to send the first waiting item. */
  ghost predicate AtFirst(q0: Queue, q: Queue, user: string, world: seq<Reply>, maxAttempts: nat, sent: seq<Item>, at: nat) {
    && Progress(q0, q, user, world, maxAttempts, sent)
    && at < |q| && IsWaiting(user, q[at]) && (forall n :: 0 <= n < at ==> !IsWaiting(user, q[n]))
  }

  /** What was sent before is not the item sent now. */
  lemma SentBefore(q0: Queue, q: Queue, user: string, world: seq<Reply>, maxAttempts: nat, sent: seq<Item>, at: nat, n: nat)
    requires AtFirst(q0, q, user, world, maxAttempts, sent, at) && n < |sent|
    ensures sent[n].id != q[at].id
  {
    IndexAt(q, at);
    assert Ended(q, sent[n].id, ReplyAt(world, n));
  }

  /** The item's place in the order, and the ids left after it. */
  lemma NextInOrder(q0: Queue, q: Queue, r: Queue, user: string, world: seq<Reply>, maxAttempts: nat, sent: seq<Item>, at: nat)
    requires AtFirst(q0, q, user, world, maxAttempts, sent, at)
    requires WaitingIds(q, user) != [] && WaitingIds(r, user) == WaitingIds(q, user)[1..]
    ensures |sent| < |WaitingIds(q0, user)| && WaitingIds(q0, user)[|sent|] == q[at].id
    ensures WaitingIds(q0, user)[..|sent| + 1] + WaitingIds(r, user) == WaitingIds(q0, user)
  {
    WaitingIdsFirst(q, user, at);
    MoveSplit(WaitingIds(q0, user), |sent|, WaitingIds(q, user));
  }

  lemma MoveSplit(all: seq<string>, n: nat, rest: seq<string>)
    requires n <= |all| && all[..n] + rest == all && rest != []
    ensures n < |all| && all[n] == rest[0] && all[..n + 1] + rest[1..] == all
  {
    assert rest == all[n..];
  }

  lemma SettledWaits(q: Queue, item: Item, made: Option<int>, user: string)
    ensures WaitingIds(Mapped(q, Settling(q, item, made)), user) == WaitingIds(q, user)
  {
    var all := Mapped(q, Settling(q, item, made));
    forall n | 0 <= n < |q| ensures all[n].id == q[n].id && (IsWaiting(user, q[n]) <==> IsWaiting(user, all[n])) {
      SettledShape(q, item, made, q[n]);
    }
    WaitingIdsMapped(q, all, user);
  }

  /** A success write keeps every other item's place, tries and status. */
  lemma SuccessKeepsItem(q: Queue, item: Item, made: Option<int>, a: string)
    requires UniqueIds(q) && a != item.id
    ensures var r := AfterSuccess(q, item, made);
      && (Holds(r, a) <==> Holds(q, a))
      && (Holds(r, a) ==> r[IndexOf(r, a)].status == q[IndexOf(q, a)].status)
  {
    var r := AfterSuccess(q, item, made);
    AfterSuccessOrder(q, item, made, a, a);
    AfterSuccessItems(q, item, made);
    if Holds(q, a) {
      HoldsMember(q, a);
      var x := q[IndexOf(q, a)];
      SettledShape(q, item, made, x);
      var y := Settling(q, item, made)(x);
      MemberHolds(r, y);
    }
  }

  lemma SuccessFewTries(q: Queue, item: Item, made: Option<int>, maxAttempts: nat)
    requires UniqueIds(q) && FewTries(q, maxAttempts)
    ensures FewTries(AfterSuccess(q, item, made), maxAttempts)
  {
    var r := AfterSuccess(q, item, made);
    AfterSuccessItems(q, item, made);
    forall n | 0 <= n < |r| && r[n].status == Pending ensures r[n].attempts < maxAttempts {
      assert r[n] in r;
      var x :| x in q && x.id != item.id && r[n] == Settling(q, item, made)(x);
      SettledShape(q, item, made, x);
    }
  }

  lemma SuccessLength(q: Queue, at: nat, made: Option<int>)
    requires UniqueIds(q) && at < |q|
    ensures |AfterSuccess(q, q[at], made)| == |q| - 1
  {
    var all := Mapped(q, Settling(q, q[at], made));
    AfterSuccessIs(q, q[at], made);
    SettledIds(q, q[at], made);
    IndexAt(q, at);
    SameIdsIndex(all, q, q[at].id);
    WithoutLength(all, q[at].id);
  }

  /** A replay that syncs takes its item out of the line. */
  lemma SuccessOrder(q: Queue, user: string, at: nat, made: Option<int>)
    requires UniqueIds(q) && at < |q| && IsWaiting(user, q[at]) && forall n :: 0 <= n < at ==> !IsWaiting(user, q[n])
    ensures WaitingIds(q, user) != [] && WaitingIds(AfterSuccess(q, q[at], made), user) == WaitingIds(q, user)[1..]
  {
    var all := Mapped(q, Settling(q, q[at], made));
    AfterSuccessIs(q, q[at], made);
    SettledWaits(q, q[at], made, user);
    SettledAt(q, user, at, made);
    WaitingIdsWithout(all, user, at);
  }

  /** What every success write keeps. */
  lemma SuccessKeeps(q0: Queue, q: Queue, user: string, world: seq<Reply>, maxAttempts: nat, sent: seq<Item>, at: nat, made: Option<int>)
    requires AtFirst(q0, q, user, world, maxAttempts, sent, at)
    ensures var r := AfterSuccess(q, q[at], made);
      && UniqueIds(r) && !Holds(r, q[at].id)
      && (FewTries(q0, maxAttempts) ==> FewTries(r, maxAttempts))
      && forall n :: 0 <= n < |sent| ==> Ended(r, sent[n].id, ReplyAt(world, n))
  {
    var item, r := q[at], AfterSuccess(q, q[at], made);
    AfterSuccessItems(q, item, made);
    forall n | 0 <= n < |sent| ensures Ended(r, sent[n].id, ReplyAt(world, n)) {
      SentBefore(q0, q, user, world, maxAttempts, sent, at, n);
      assert Ended(q, sent[n].id, ReplyAt(world, n));
      SuccessKeepsItem(q, item, made, sent[n].id);
    }
    if FewTries(q0, maxAttempts) { SuccessFewTries(q, item, made, maxAttempts); }
  }

  lemma SuccessKeepsTheirs(q: Queue, at: nat, made: Option<int>, user: string)
    requires UniqueIds(q) && at < |q| && q[at].userId == user
    ensures Filter(AfterSuccess(q, q[at], made), NotOf(user)) == Filter(q, NotOf(user))
  {
    forall x | x in q && x.id == q[at].id ensures x.userId == user { MemberHolds(q, x); IndexAt(q, at); }
    SuccessKeepsOthers(q, q[at], made);
  }

  /** A replay that syncs: the item is gone, everything else goes on. */
  lemma SuccessStep(q0: Queue, q: Queue, user: string, world: seq<Reply>, maxAttempts: nat, sent: seq<Item>, at: nat, made: Option<int>)
    requires AtFirst(q0, q, user, world, maxAttempts, sent, at) && ReplyAt(world, |sent|) == Synced(made)
    ensures var r := AfterSuccess(q, q[at], made);
      && Progress(q0, r, user, world, maxAttempts, sent + [q[at]])
      && |r| == |q| - 1 && |WaitingIds(r, user)| < |WaitingIds(q, user)|
  {
    var r := AfterSuccess(q, q[at], made);
    SuccessOrder(q, user, at, made);
    SuccessKeeps(q0, q, user, world, maxAttempts, sent, at, made);
    SuccessKeepsTheirs(q, at, made, user);
    NextInOrder(q0, q, r, user, world, maxAttempts, sent, at);
    SuccessLength(q, at, made);
  }

  lemma SettledAt(q: Queue, user: string, at: nat, made: Option<int>)
    requires UniqueIds(q) && at < |q| && IsWaiting(user, q[at]) && forall n :: 0 <= n < at ==> !IsWaiting(user, q[n])
    ensures var all := Mapped(q, Settling(q, q[at], made));
      && UniqueIds(all) && all[at].id == q[at].id && IsWaiting(user, all[at])
      && forall n :: 0 <= n < at ==> !IsWaiting(user, all[n])
  {
    SettledIds(q, q[at], made);
    forall n | 0 <= n <= at ensures var y := Settled(q, q[at], made, q[n]); y.status == q[n].status && y.userId == q[n].userId {
      SettledShape(q, q[at], made, q[n]);
    }
  }

  lemma FailurePlaces(q: Queue, at: nat, status: Option<int>, final: bool, maxAttempts: nat)
    requires UniqueIds(q) && at < |q|
    ensures var r := AfterFailure(q, q[at].id, status, final, maxAttempts);
      && SameIds(q, r) && UniqueIds(r) && r[at] == FailedTry(q[at], status, final, maxAttempts)
      && forall n :: 0 <= n < |q| && n != at ==> r[n] == q[n]
  {
  }

  lemma FailureKeepsItem(q: Queue, at: nat, status: Option<int>, final: bool, maxAttempts: nat, a: string)
    requires UniqueIds(q) && at < |q| && a != q[at].id
    ensures var r := AfterFailure(q, q[at].id, status, final, maxAttempts);
      && (Holds(r, a) <==> Holds(q, a))
      && (Holds(r, a) ==> r[IndexOf(r, a)] == q[IndexOf(q, a)])
  {
    var r := AfterFailure(q, q[at].id, status, final, maxAttempts);
    FailurePlaces(q, at, status, final, maxAttempts);
    SameIdsIndex(q, r, a);
  }

  /** What every failure write keeps. */
  lemma FailureKeeps(q0: Queue, q: Queue, user: string, world: seq<Reply>, maxAttempts: nat, sent: seq<Item>, at: nat, status: Option<int>, final: bool)
    requires AtFirst(q0, q, user, world, maxAttempts, sent, at)
    ensures var r := AfterFailure(q, q[at].id, status, final, maxAttempts);
      && UniqueIds(r) && Filter(r, NotOf(user)) == Filter(q0, NotOf(user))
      && (FewTries(q0, maxAttempts) ==> FewTries(r, maxAttempts))
      && forall n :: 0 <= n < |sent| ==> Ended(r, sent[n].id, ReplyAt(world, n))
  {
    var r := AfterFailure(q, q[at].id, status, final, maxAttempts);
    FailurePlaces(q, at, status, final, maxAttempts);
    forall x | x in q && x.id == q[at].id ensures x.userId == user { MemberHolds(q, x); IndexAt(q, at); }
    FailureKeepsOthers(q, q[at].id, status, final, maxAttempts, user);
    forall n | 0 <= n < |sent| ensures Ended(r, sent[n].id, ReplyAt(world, n)) {
      SentBefore(q0, q, user, world, maxAttempts, sent, at, n);
      assert Ended(q, sent[n].id, ReplyAt(world, n));
      FailureKeepsItem(q, at, status, final, maxAttempts, sent[n].id);
    }
  }

  /** A replay that gives its item up: it is marked failed, and the flush goes on. */
  lemma FailStep(q0: Queue, q: Queue, user: string, world: seq<Reply>, maxAttempts: nat, sent: seq<Item>, at: nat, status: Option<int>, final: bool)
    requires AtFirst(q0, q, user, world, maxAttempts, sent, at) && ReplyAt(world, |sent|).Stopped?
    requires final || q[at].attempts + 1 >= maxAttempts
    ensures var r := AfterFailure(q, q[at].id, status, final, maxAttempts);
      Progress(q0, r, user, world, maxAttempts, sent + [q[at]]) && |WaitingIds(r, user)| < |WaitingIds(q, user)|
  {
    var r, now := AfterFailure(q, q[at].id, status, final, maxAttempts), sent + [q[at]];
    FailureKeeps(q0, q, user, world, maxAttempts, sent, at, status, final);
    FailurePlaces(q, at, status, final, maxAttempts);
    WaitingIdsFailed(q, r, user, at);
    NextInOrder(q0, q, r, user, world, maxAttempts, sent, at);
    IndexAt(r, at);
  }

  /** A replay to be tried again: its item waits on, first in line. */
  lemma PauseStep(q0: Queue, q: Queue, user: string, world: seq<Reply>, maxAttempts: nat, sent: seq<Item>, at: nat, status: Option<int>)
    requires AtFirst(q0, q, user, world, maxAttempts, sent, at) && q[at].attempts + 1 < maxAttempts
    ensures var r := AfterFailure(q, q[at].id, status, false, maxAttempts);
      Progress(q0, r, user, world, maxAttempts, sent) && WaitingIds(r, user) == WaitingIds(q, user)
  {
    var r := AfterFailure(q, q[at].id, status, false, maxAttempts);
    FailureKeeps(q0, q, user, world, maxAttempts, sent, at, status, false);
    FailurePlaces(q, at, status, false, maxAttempts);
    WaitingIdsMapped(q, r, user);
  }

  lemma FlushDone(q0: Queue, q: Queue, user: string, world: seq<Reply>, maxAttempts: nat, done: seq<Item>,
      synced: nat, failed: nat, paused: bool, sent: seq<Item>)
    requires Progress(q0, q, user, world, maxAttempts, done)
    requires synced + failed == |done| && |q| == |q0| - synced
    requires if paused then
        |sent| == |done| + 1 && sent[..|done|] == done && WaitingIds(q, user) != [] && sent[|done|].id == WaitingIds(q, user)[0]
        && ReplyAt(world, |done|).Stopped? && ReplyAt(world, |done|).outcome != Fail
      else sent == done && WaitingIds(q, user) == []
    ensures Flushed(q0, q, user, world, maxAttempts, FlushResult(synced, failed, |WaitingIds(q, user)|, paused, false), sent)
  {
    assert sent[..|done|] == done;
  }

  /** One turn of the flush: it goes on, or pauses at this item. */
  lemma ReplayStep(q0: Queue, q: Queue, user: string, world: seq<Reply>, maxAttempts: nat, sent: seq<Item>, at: nat, synced: nat, failed: nat)
    requires AtFirst(q0, q, user, world, maxAttempts, sent, at)
    requires WaitingIds(q, user) != [] && WaitingIds(q, user)[0] == q[at].id
    requires synced + failed == |sent| && |q| == |q0| - synced
    ensures var reply, now := ReplyAt(world, |sent|), sent + [q[at]];
      var r, end := AfterReply(q, q[at], reply, maxAttempts), EndOf(q[at], reply, maxAttempts);
      if end == Waits then
        Flushed(q0, r, user, world, maxAttempts, FlushResult(synced, failed, |WaitingIds(r, user)|, true, false), now)
      else
        && Progress(q0, r, user, world, maxAttempts, now)
        && |r| == |q| - (if end == Done then 1 else 0) && |WaitingIds(r, user)| < |WaitingIds(q, user)|
  {
    match ReplyAt(world, |sent|)
    case Synced(made) => SuccessStep(q0, q, user, world, maxAttempts, sent, at, made);
    case Stopped(status, outcome) =>
      if outcome == Fail || (outcome != Pause && q[at].attempts + 1 >= maxAttempts) {
        FailStep(q0, q, user, world, maxAttempts, sent, at, status, outcome == Fail);
      } else {
        if outcome != Pause {
          PauseStep(q0, q, user, world, maxAttempts, sent, at, status);
        }
        var r := AfterReply(q, q[at], ReplyAt(world, |sent|), maxAttempts);
        FlushDone(q0, r, user, world, maxAttempts, sent, synced, failed, true, sent + [q[at]]);
      }
  }

  lemma WaitingFound(q: Queue, user: string, change: Change)
    ensures forall x :: x in WaitingWrites(q, user, change) <==> x in q && WaitsFor(user, change, x)
    ensures WaitingWrites(q, user, change) == [] <==> !exists x :: x in q && WaitsFor(user, change, x)
  {
    var p := (i: Item) => WaitsFor(user, change, i);
    FilterMembers(q, p);
    var waiting := WaitingWrites(q, user, change);
    assert waiting == Filter(q, p);
    if waiting != [] { assert waiting[0] in waiting; }
  }

  /** A change queued behind others is the change itself, an edit expecting the newest version they, or it, expect. */
  lemma BehindFollows(q: Queue, user: string, change: Change)
    ensures var now := Behind(WaitingWrites(q, user, change), change);
      && KinChange(now, change)
      && (change.TaskUpdate? ==> now == change.(expectedVersion := ExpectedVersion(now)) && IsNewest(ExpectedVersion(now), q, user, change))
      && (!change.TaskUpdate? ==> now == change)
  {
    var waiting := WaitingWrites(q, user, change);
    WaitingFound(q, user, change);
    if change.TaskUpdate? {
      Versions.BehindIsNewest(waiting, change);
    }
  }
}
