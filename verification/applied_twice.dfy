/** Where the assumption on Retry fails, a POST change is applied twice; and what a 408 answer has to do with it. */
module AppliedTwice {
  import opened Lists
  import opened Edits
  import opened Changes
  import opened QueueWrites
  import opened Protocol
  import opened StepItems
  import opened Continuations
  import opened AtMostOnce

  /** The server applied this queued change already. */
  ghost predicate AppliedAlready(s: State, origin: string) {
    exists i :: 0 <= i < |s.server.posts| && s.server.posts[i].origin == origin
  }

  /** A key answered with a success has had its change applied, unless a message's id stood in the way. */
  ghost predicate InvDone(s: State) {
    forall k :: k in s.server.answers && s.server.answers[k] == Done ==>
      k in s.hist.keys && (AppliedAlready(s, s.hist.keys[k].origin) || k in s.server.messages || s.hist.keys[k].client.Some?)
  }

  lemma AppliedStays(s: State, step: Step, origin: string)
    requires Enabled(s, step) && AppliedAlready(s, origin)
    ensures AppliedAlready(Apply(s, step), origin)
  {
    PostsAfter(s, step);
    var i :| 0 <= i < |s.server.posts| && s.server.posts[i].origin == origin;
    assert ServerAfter(s, step).posts[i] == s.server.posts[i];
  }

  /** An accepted POST has been applied, unless a stored message had its id. */
  lemma AcceptApplies(s: State, r: Request)
    requires InvOwners(s) && InvDone(s) && Enabled(s, Accept(r)) && IsPost(r.change)
    ensures var t := Apply(s, Accept(r)); AppliedAlready(t, r.origin) || r.key in s.server.messages || IsOwnMessage(r.change)
  {
    assert Owned(s.hist.keys, r.key, r.origin, r.change);
    var t := Apply(s, Accept(r));
    if r.key in s.server.answers {
      if AppliedAlready(s, r.origin) { AppliedStays(s, Accept(r), r.origin); }
    } else if t.server.posts != s.server.posts {
      assert t.server.posts[|s.server.posts|].origin == r.origin;
    }
  }

  lemma DoneKept(s: State, step: Step)
    requires InvOwners(s) && InvDone(s) && Enabled(s, step)
    ensures InvDone(Apply(s, step))
  {
    var t := Apply(s, step);
    AnsweredAfter(s, step);
    KeysGrow(s, step);
    MessagesAfter(s, step);
    forall k | k in t.server.answers && t.server.answers[k] == Done
      ensures k in t.hist.keys && (AppliedAlready(t, t.hist.keys[k].origin) || k in t.server.messages || t.hist.keys[k].client.Some?)
    {
      if k in s.server.answers {
        if AppliedAlready(s, s.hist.keys[k].origin) { AppliedStays(s, step, s.hist.keys[k].origin); }
      } else {
        NewlyDone(s, step, k);
      }
    }
  }

  lemma NewlyDone(s: State, step: Step, k: string)
    requires InvOwners(s) && InvDone(s) && Enabled(s, step)
    requires k !in s.server.answers && k in ServerAfter(s, step).answers && ServerAfter(s, step).answers[k] == Done
    ensures step.Accept? && IsPost(step.request.change) && step.request.key == k
    ensures var t := Apply(s, step);
      k in t.hist.keys && (AppliedAlready(t, t.hist.keys[k].origin) || k in t.server.messages || t.hist.keys[k].client.Some?)
  {
    var r := step.request;
    assert Owned(s.hist.keys, r.key, r.origin, r.change);
    AcceptApplies(s, r);
    MessagesAfter(s, step);
  }

  lemma {:induction false} DoneInvariant(states: seq<State>, steps: seq<Step>, n: nat)
    requires IsTrace(states, steps) && n <= |steps|
    ensures InvDone(states[n])
  {
    if n > 0 {
      DoneInvariant(states, steps, n - 1);
      OwnersInvariant(states, steps, n - 1);
      assert OneStep(states[n - 1], steps[n - 1], states[n]);
      DoneKept(states[n - 1], steps[n - 1]);
    }
  }

  // ---- Any Retry that is not honest -------------------------------------------------------------------

  /** Random keys are no message's id: the new one is none, and the old one only its own. */
  ghost predicate KeysApart(s: State, x: Item, freshKey: string) {
    freshKey !in s.server.messages && (x.idempotencyKey in s.server.messages ==> AppliedAlready(s, Origin(x)))
  }

  /** The item a Retry that isn't honest puts back, and a request of it that the server can still take. */
  lemma Dishonest(s: State, id: string, freshKey: string) returns (x: Item, r: Request)
    requires InvIds(s) && InvOwners(s) && Enabled(s, RetryItem(id, freshKey)) && !Honest(s, RetryItem(id, freshKey))
    ensures Holds(s.queue, id) && x == s.queue[IndexOf(s.queue, id)] && x in s.queue && x.id == id
    ensures Renews(x) && IsPost(x.change) && !IsOwnMessage(x.change)
    ensures r in s.net && r.key == x.idempotencyKey && r.origin == Origin(x) && IsPost(r.change) && !IsOwnMessage(r.change)
    ensures Enabled(s, Accept(r)) && x.idempotencyKey in s.hist.keys
  {
    HoldsMember(s.queue, id);
    x := s.queue[IndexOf(s.queue, id)];
    r :| r in s.net && r.key == x.idempotencyKey;
    assert Owned(s.hist.keys, r.key, r.origin, r.change) && Owned(s.hist.keys, x.idempotencyKey, Origin(x), x.change);
  }

  lemma SameTake(s: State, t: State, r: Request)
    requires t.net == s.net && t.server == s.server && Enabled(s, Accept(r))
    ensures Enabled(t, Accept(r)) && ServerAfter(t, Accept(r)) == ServerAfter(s, Accept(r))
  {
  }

  /** Put back under a new key, it waits while the server takes the request it was sent with before. */
  lemma TakenOnce(s: State, x: Item, r: Request, freshKey: string) returns (landed: State, y: Item)
    requires InvIds(s) && InvOwners(s) && InvDone(s) && Enabled(s, RetryItem(x.id, freshKey)) && KeysApart(s, x, freshKey)
    requires x in s.queue && Renews(x) && r.key == x.idempotencyKey && r.origin == Origin(x) && IsPost(r.change) && !IsOwnMessage(r.change)
    requires Enabled(s, Accept(r)) && x.idempotencyKey in s.hist.keys
    ensures Leads(s, [RetryItem(x.id, freshKey), Accept(r)]) == Some(landed)
    ensures InvIds(landed) && y in landed.queue && y == Retried(x, freshKey)
    ensures AppliedAlready(landed, Origin(x)) && freshKey !in landed.server.messages && freshKey !in landed.server.answers
  {
    var retry := RetryItem(x.id, freshKey);
    var again := Apply(s, retry);
    y := Retried(x, freshKey);
    IdsKept(s, retry);
    MovedInQueue(s, retry, x);
    SameTake(s, again, r);
    landed := Apply(again, Accept(r));
    IdsKept(again, Accept(r));
    LeadsOne(s, retry);
    LeadsSnoc(s, [retry], Accept(r));
    assert [retry] + [Accept(r)] == [retry, Accept(r)];
    AcceptApplies(s, r);
    if AppliedAlready(s, Origin(x)) { AppliedStays(s, Accept(r), Origin(x)); }
    TakenAnswers(s, r, freshKey);
  }

  lemma TakenAnswers(s: State, r: Request, freshKey: string)
    requires InvOwners(s) && Enabled(s, Accept(r)) && IsPost(r.change) && !IsOwnMessage(r.change)
    requires freshKey !in s.hist.keys && freshKey !in s.server.messages
    ensures freshKey !in ServerAfter(s, Accept(r)).answers && freshKey !in ServerAfter(s, Accept(r)).messages
  {
    assert Owned(s.hist.keys, r.key, r.origin, r.change);
  }

  /** Then it is sent under the new key, and applied again. */
  lemma TakenTwice(s: State, y: Item) returns (steps: seq<Step>, t: State)
    requires InvIds(s) && y in s.queue && y.status == Pending && y.userId != "" && IsPost(y.change) && !IsOwnMessage(y.change)
    requires AppliedAlready(s, Origin(y)) && y.idempotencyKey !in s.server.messages && y.idempotencyKey !in s.server.answers
    ensures Leads(s, steps) == Some(t) && NoRetry(steps) && IsAppliedTwice(t, Origin(y))
  {
    var alone, u := KeepOnly(s, y);
    var send, v := SendsAlone(u, y);
    LeadsOn(s, alone, send);
    var last;
    last, t := PickedAgain(v, y);
    LeadsOn(s, alone + send, last);
    steps := alone + send + last;
  }

  lemma PickedAgain(s: State, y: Item) returns (steps: seq<Step>, t: State)
    requires Enabled(s, Pick) && Picked(s) == y && IsPost(y.change) && !IsOwnMessage(y.change)
    requires AppliedAlready(s, Origin(y)) && y.idempotencyKey !in s.server.messages && y.idempotencyKey !in s.server.answers
    ensures Leads(s, steps) == Some(t) && NoRetry(steps) && IsAppliedTwice(t, Origin(y))
  {
    var r := RequestOf(y);
    var sent := Apply(s, Pick);
    t := Apply(sent, Accept(r));
    LeadsOne(s, Pick);
    LeadsSnoc(s, [Pick], Accept(r));
    assert [Pick] + [Accept(r)] == [Pick, Accept(r)];
    steps := [Pick, Accept(r)];
    NoRetryTwo(Pick, Accept(r));
    OneMorePost(s, t, y);
  }

  lemma OneMorePost(s: State, t: State, y: Item)
    requires AppliedAlready(s, Origin(y)) && t.server.posts == s.server.posts + [OwnerOf(Origin(y), y.change)]
    ensures IsAppliedTwice(t, Origin(y))
  {
    var i :| 0 <= i < |s.server.posts| && s.server.posts[i].origin == Origin(y);
    assert t.server.posts[i].origin == t.server.posts[|s.server.posts|].origin == Origin(y);
  }

  ghost predicate IsAppliedTwice(s: State, origin: string) {
    exists i, j :: 0 <= i < j < |s.server.posts| && s.server.posts[i].origin == s.server.posts[j].origin == origin
  }

  /**
    * The assumption on Retry is exact. In any state of an honest run, a Retry that is not honest lets its change be
    * applied twice: after some later steps, none of them a Retry, the server has applied it under two keys.
    */
  lemma RetryAppliesAgain(steps: seq<Step>, id: string, freshKey: string) returns (x: Item, more: seq<Step>, t: State)
    requires HonestRun(steps)
    requires var s := Run(steps).value; Enabled(s, RetryItem(id, freshKey)) && !Honest(s, RetryItem(id, freshKey))
    requires var s := Run(steps).value; Holds(s.queue, id) ==> KeysApart(s, s.queue[IndexOf(s.queue, id)], freshKey)
    ensures var s := Run(steps).value;
      && Holds(s.queue, id) && x == s.queue[IndexOf(s.queue, id)]
      && Leads(s, [RetryItem(id, freshKey)] + more) == Some(t) && NoRetry(more) && IsAppliedTwice(t, Origin(x))
  {
    var s := Run(steps).value;
    var states := TraceOf(steps);
    OwnersInvariant(states, steps, |steps|);
    DoneInvariant(states, steps, |steps|);
    UsersInvariant(states, steps, |steps|);
    x, more, t := RetriedTwice(s, id, freshKey);
  }

  lemma RetriedTwice(s: State, id: string, freshKey: string) returns (x: Item, more: seq<Step>, t: State)
    requires InvIds(s) && InvOwners(s) && InvDone(s) && InvUsers(s)
    requires Enabled(s, RetryItem(id, freshKey)) && !Honest(s, RetryItem(id, freshKey))
    requires Holds(s.queue, id) ==> KeysApart(s, s.queue[IndexOf(s.queue, id)], freshKey)
    ensures Holds(s.queue, id) && x == s.queue[IndexOf(s.queue, id)]
    ensures Leads(s, [RetryItem(id, freshKey)] + more) == Some(t) && NoRetry(more) && IsAppliedTwice(t, Origin(x))
  {
    var r;
    x, r := Dishonest(s, id, freshKey);
    more, t := TakenAgain(s, x, r, freshKey);
  }

  lemma TakenAgain(s: State, x: Item, r: Request, freshKey: string) returns (more: seq<Step>, t: State)
    requires InvIds(s) && InvOwners(s) && InvDone(s) && InvUsers(s) && Enabled(s, RetryItem(x.id, freshKey)) && KeysApart(s, x, freshKey)
    requires x in s.queue && Renews(x) && IsPost(x.change) && !IsOwnMessage(x.change) && x.idempotencyKey in s.hist.keys
    requires r.key == x.idempotencyKey && r.origin == Origin(x) && IsPost(r.change) && !IsOwnMessage(r.change) && Enabled(s, Accept(r))
    ensures Leads(s, [RetryItem(x.id, freshKey)] + more) == Some(t) && NoRetry(more) && IsAppliedTwice(t, Origin(x))
  {
    var landed, y := TakenOnce(s, x, r, freshKey);
    var rest;
    rest, t := TakenTwice(landed, y);
    more := [Accept(r)] + rest;
    LeadsOn(s, [RetryItem(x.id, freshKey), Accept(r)], rest);
    TwoFirst(RetryItem(x.id, freshKey), Accept(r), rest);
  }

  // ---- The answer 408 --------------------------------------------------------------------------------------

  /** A refusal (a 4xx that fails a POST) is the server's own answer to its key. */
  predicate IsTheServers(s: State, step: Step)
    requires Enabled(s, step)
  {
    match step
    case ReplayFailed(Some(status), Fail) =>
      IsPost(CurrentItem(s).value.change) && 400 <= status < 500 ==> IsRefused(s.server.answers, CurrentItem(s).value.idempotencyKey)
    case _ => true
  }

  /** A run of honest steps whose refusals are the server's. */
  ghost predicate ServerRun(steps: seq<Step>) {
    && Run(steps).Some?
    && (steps != [] ==>
          var init, last := steps[..|steps| - 1], steps[|steps| - 1];
          ServerRun(init) && Honest(Run(init).value, last) && IsTheServers(Run(init).value, last))
  }

  /** The server has refused this key, or has never been sent it. */
  ghost predicate IsSpent(s: State, key: string) {
    IsRefused(s.server.answers, key) || !WasSent(s, key)
  }

  /** A recorded refusal, 408 aside. */
  predicate Refusal(x: Item) {
    WasRefused(x) && x.lastStatus != Some(408)
  }

  /** A recorded refusal is the server's, and ends the tries. */
  ghost predicate GoodRecord(s: State, x: Item) {
    IsPost(x.change) && Refusal(x) ==> IsSpent(s, x.idempotencyKey) && x.status == Failed
  }

  /** While a POST item is replayed it has the key it was sent with, or one not sent yet. */
  ghost predicate GoodFlight(s: State, x: Item) {
    CurrentItem(s).Some? && x.id == CurrentItem(s).value.id && IsPost(x.change) ==>
      x.idempotencyKey == CurrentItem(s).value.idempotencyKey || !WasSent(s, x.idempotencyKey)
  }

  ghost predicate InvRecords(s: State) {
    forall x :: x in s.queue ==> GoodRecord(s, x) && GoodFlight(s, x)
  }

  /** A key stays spent until its own item is picked. */
  lemma SpentStays(s: State, step: Step, x: Item)
    requires InvIds(s) && InvOwners(s) && InvOrigins(s) && Enabled(s, step) && x in s.queue && IsSpent(s, x.idempotencyKey)
    requires step.Pick? ==> Picked(s).id != x.id
    ensures IsSpent(Apply(s, step), x.idempotencyKey)
  {
    AnsweredAfter(s, step);
    if !WasSent(s, x.idempotencyKey) { UnsentStays(s, step, x); }
  }

  lemma UnsentStays(s: State, step: Step, x: Item)
    requires InvIds(s) && InvOwners(s) && InvOrigins(s) && Enabled(s, step) && x in s.queue && !WasSent(s, x.idempotencyKey)
    requires step.Pick? ==> Picked(s).id != x.id
    ensures !WasSent(Apply(s, step), x.idempotencyKey)
  {
    assert Owned(s.hist.keys, x.idempotencyKey, Origin(x), x.change);
    forall r | r in NetAfter(s, step) ensures r.key != x.idempotencyKey {
      if r !in s.net {
        NetAfterIs(s, step, r);
        if step.Pick? { assert Owned(s.hist.keys, Picked(s).idempotencyKey, Origin(Picked(s)), Picked(s).change); }
      }
    }
  }

  lemma FreshUnsent(s: State, step: Step)
    requires InvOwners(s) && Enabled(s, step) && step.RetryItem?
    ensures !WasSent(Apply(s, step), step.freshKey)
  {
    forall r | r in s.net ensures r.key != step.freshKey { assert Owned(s.hist.keys, r.key, r.origin, r.change); }
  }

  /** What a step other than a failed try does to an item's record. */
  lemma MovedRecord(s: State, step: Step, x: Item)
    requires InvIds(s) && Enabled(s, step) && x in s.queue
    requires !(step.ReplayFailed? && step.outcome != Pause && x.id == CurrentItem(s).value.id)
    ensures var y := Moved(s, step, x);
      IsPost(y.change) == IsPost(x.change)
      && (if step.RetryItem? && x.id == step.id && !x.superseded then y.lastStatus == None && y.status == Pending
          else y.lastStatus == x.lastStatus && y.status == x.status && y.idempotencyKey == x.idempotencyKey)
  {
    MovedKin(s, step, x);
    match step
    case SentOk(key, _) => SupersedeShape(s.live[key].user, s.live[key].change, x);
    case ReplayOk(made) => SettledShape(s.queue, CurrentItem(s).value, made, x);
    case ReplayHeld(made) => SettledShape(s.queue, CurrentItem(s).value, made, x);
    case _ =>
  }

  lemma FailedTryRecord(s: State, step: Step, x: Item)
    requires InvIds(s) && InvCurrent(s) && InvRecords(s) && Enabled(s, step) && IsTheServers(s, step)
    requires step.ReplayFailed? && step.outcome != Pause && x in s.queue && x.id == CurrentItem(s).value.id
    ensures GoodRecord(Apply(s, step), FailedTry(x, step.status, step.outcome == Fail, MAX_ATTEMPTS))
  {
    assert Kin(x, CurrentItem(s).value);
    assert GoodFlight(s, x);
    if IsPost(x.change) && Refusal(FailedTry(x, step.status, step.outcome == Fail, MAX_ATTEMPTS)) {
      FailedForGood(s, step, x);
      assert NetAfter(s, step) == s.net && ServerAfter(s, step) == s.server;
    }
  }

  lemma FailedForGood(s: State, step: Step, x: Item)
    requires Enabled(s, step) && step.ReplayFailed? && step.outcome != Pause && IsPost(CurrentItem(s).value.change)
    requires step.status.Some? && 400 <= step.status.value < 500 && step.status != Some(408)
    ensures step.outcome == Fail
  {
  }

  lemma RecordKept(s: State, step: Step, x: Item)
    requires InvIds(s) && InvCurrent(s) && InvOwners(s) && InvOrigins(s) && InvRecords(s) && Enabled(s, step) && IsTheServers(s, step) && x in s.queue
    ensures GoodRecord(Apply(s, step), Moved(s, step, x))
  {
    assert GoodRecord(s, x);
    if step.ReplayFailed? && step.outcome != Pause && x.id == CurrentItem(s).value.id {
      FailedTryRecord(s, step, x);
    } else {
      MovedRecord(s, step, x);
      if IsPost(x.change) && Refusal(x) {
        if step.Pick? { NotPicked(s, x); }
        SpentStays(s, step, x);
      }
    }
  }

  lemma NotPicked(s: State, x: Item)
    requires InvIds(s) && Enabled(s, Pick) && x in s.queue && x.status == Failed
    ensures Picked(s).id != x.id
  {
    MemberHolds(s.queue, x);
    IndexAt(s.queue, NextPick(s.queue, s.flush.value.user, s.flush.value.tried));
  }

  lemma PickedIsSent(s: State, x: Item)
    requires InvIds(s) && Enabled(s, Pick) && x in s.queue
    ensures GoodFlight(Apply(s, Pick), x)
  {
    MemberHolds(s.queue, x);
    IndexAt(s.queue, NextPick(s.queue, s.flush.value.user, s.flush.value.tried));
  }

  lemma FlightKept(s: State, step: Step, x: Item)
    requires InvIds(s) && InvOwners(s) && InvOrigins(s) && InvRecords(s) && Enabled(s, step) && x in s.queue
    ensures GoodFlight(Apply(s, step), Moved(s, step, x))
  {
    CurrentAfter(s, step);
    assert GoodFlight(s, x);
    if step.Pick? {
      PickedIsSent(s, x);
    } else if CurrentItem(Apply(s, step)).Some? {
      MovedKin(s, step, x);
      MovedKey(s, step, x);
      if step.RetryItem? { FreshUnsent(s, step); }
      if !WasSent(s, x.idempotencyKey) { UnsentStays(s, step, x); }
    }
  }

  lemma AddedRecord(s: State, step: Step)
    requires InvIds(s) && InvCurrent(s) && Enabled(s, step) && Added(s, step).Some?
    ensures GoodRecord(Apply(s, step), Added(s, step).value) && GoodFlight(Apply(s, step), Added(s, step).value)
  {
  }

  lemma RecordsKept(s: State, step: Step)
    requires InvIds(s) && InvCurrent(s) && InvOwners(s) && InvOrigins(s) && InvRecords(s) && Enabled(s, step) && IsTheServers(s, step)
    ensures InvRecords(Apply(s, step))
  {
    forall y | y in QueueAfter(s, step) ensures GoodRecord(Apply(s, step), y) && GoodFlight(Apply(s, step), y) {
      if Added(s, step) == Some(y) {
        AddedRecord(s, step);
      } else {
        var x := CameFrom(s, step, y);
        RecordKept(s, step, x);
        FlightKept(s, step, x);
      }
    }
  }

  lemma {:induction false} RecordsInvariant(steps: seq<Step>)
    requires ServerRun(steps)
    ensures HonestRun(steps) && InvCurrent(Run(steps).value) && InvRecords(Run(steps).value)
  {
    if steps != [] {
      var s, last := Run(steps[..|steps| - 1]).value, steps[|steps| - 1];
      RecordsInvariant(steps[..|steps| - 1]);
      OnceInvariant(steps[..|steps| - 1]);
      CurrentKept(s, last);
      RecordsKept(s, last);
    }
  }

  /**
    * Where every refusal is the server's own, a Retry lets a change be applied twice if and only if the last answer
    * was a 408, to a POST that is no message with its own id, under a key that was sent and not refused.
    */
  lemma DishonestIs408(steps: seq<Step>, id: string, freshKey: string)
    requires ServerRun(steps) && Enabled(Run(steps).value, RetryItem(id, freshKey)) && Holds(Run(steps).value.queue, id)
    ensures var s := Run(steps).value;
      var x := s.queue[IndexOf(s.queue, id)];
      !Honest(s, RetryItem(id, freshKey)) <==>
        x.lastStatus == Some(408) && !x.superseded && IsPost(x.change) && !IsOwnMessage(x.change)
        && WasSent(s, x.idempotencyKey) && !IsRefused(s.server.answers, x.idempotencyKey)
  {
    var s := Run(steps).value;
    RecordsInvariant(steps);
    HoldsMember(s.queue, id);
    assert GoodRecord(s, s.queue[IndexOf(s.queue, id)]);
  }

  // ---- Two runs --------------------------------------------------------------------------------------------

  /** One queued item, nothing in flight. */
  ghost predicate Alone(s: State, x: Item) {
    s.queue == [x] && s.flush == None && x.status == Pending && !x.superseded && x.userId != ""
  }

  /** A flush starts and sends the one item. */
  lemma SendAlone(steps: seq<Step>, x: Item) returns (more: seq<Step>)
    requires Run(steps).Some? && Alone(Run(steps).value, x)
    ensures var s := Run(steps).value;
      Run(more) == Some(s.(flush := Some(Flush(x.userId, {x.id}, Some(x))), net := s.net + {RequestOf(x)}))
  {
    var s := Run(steps).value;
    RunSnoc(steps, StartFlush(x.userId));
    var started := steps + [StartFlush(x.userId)];
    assert Run(started) == Some(s.(flush := Some(Flush(x.userId, {}, None))));
    assert CanPick(x.userId, {}, x);
    assert {} + {x.id} == {x.id};
    RunSnoc(started, Pick);
    more := started + [Pick];
  }

  /** The one item in flight is answered 408, and the flush ends. */
  lemma TimeOutAlone(steps: seq<Step>, x: Item) returns (more: seq<Step>)
    requires Run(steps).Some? && x.attempts < MAX_ATTEMPTS && x.status == Pending
    requires Run(steps).value.queue == [x] && Run(steps).value.flush == Some(Flush(x.userId, {x.id}, Some(x)))
    ensures Run(more).Some?
    ensures var s, t := Run(steps).value, Run(more).value;
      && t.queue == [FailedTry(x, Some(408), false, MAX_ATTEMPTS)]
      && t.flush == None && t.server == s.server && t.net == s.net && t.hist.keys == s.hist.keys
  {
    var s := Run(steps).value;
    var failed := ReplayFailed(Some(408), Outcome.Retry);
    RunSnoc(steps, failed);
    more := steps + [failed];
    var t := Apply(s, failed);
    assert t.queue == [FailedTry(x, Some(408), false, MAX_ATTEMPTS)];
    if t.flush.Some? {
      assert t.flush == Some(Flush(x.userId, {x.id}, None));
      assert !CanPick(x.userId, {x.id}, t.queue[0]);
      RunSnoc(more, EndFlush);
      more := more + [EndFlush];
    }
  }

  lemma TimedOutTries(steps: seq<Step>, x: Item) returns (more: seq<Step>, y: Item)
    requires Run(steps).Some? && Alone(Run(steps).value, x) && x.attempts < MAX_ATTEMPTS
    ensures Run(more).Some?
    ensures var s, t := Run(steps).value, Run(more).value;
      && t.queue == [y] && y == x.(attempts := MAX_ATTEMPTS, lastStatus := Some(408), status := Failed)
      && t.flush == None && t.server == s.server && t.hist.keys == s.hist.keys
    decreases MAX_ATTEMPTS - x.attempts
  {
    more := SendAlone(steps, x);
    more := TimeOutAlone(more, x);
    y := FailedTry(x, Some(408), false, MAX_ATTEMPTS);
    if y.status == Pending {
      more, y := TimedOutTries(more, y);
    }
  }

  /** A change is sent now, the server applies it, and the answer is lost: it is kept for later. */
  lemma AppliedButKept(c: Change) returns (steps: seq<Step>, x: Item)
    requires IsPost(c) && !IsOwnMessage(c)
    ensures x == NewItem("i", c, "u", "k")
    ensures Run(steps).Some? && Alone(Run(steps).value, x)
    ensures var s := Run(steps).value;
      s.server.posts == [OwnerOf("k", c)] && s.server.answers.Keys == {"k"} && s.server.messages <= {"k"} && s.hist.keys.Keys == {"k"}
  {
    x := NewItem("i", c, "u", "k");
    steps := AppliedNow(c);
    RunSnoc(steps, SentKept("k", "i"));
    steps := steps + [SentKept("k", "i")];
  }

  lemma AppliedNow(c: Change) returns (steps: seq<Step>)
    requires IsPost(c) && !IsOwnMessage(c)
    ensures Run(steps).Some?
    ensures var s := Run(steps).value;
      && s.queue == [] && s.flush == None && s.live == map["k" := Live("u", c, {})] && s.hist.enqueued == {}
      && s.server.posts == [OwnerOf("k", c)] && s.server.answers.Keys == {"k"} && s.server.messages <= {"k"} && s.hist.keys.Keys == {"k"}
  {
    var r := LiveRequest("k", Live("u", c, {}));
    assert Ids([]) == {};
    RunSnoc([], SendNow("u", c, "k"));
    steps := [] + [SendNow("u", c, "k")];
    assert r in Run(steps).value.net;
    RunSnoc(steps, Accept(r));
    steps := steps + [Accept(r)];
  }

  /** The given-up item is retried under a new key, sent, and applied again. */
  lemma AppliedAgain(steps: seq<Step>, y: Item, freshKey: string) returns (more: seq<Step>)
    requires Run(steps).Some? && Run(steps).value.queue == [y] && Run(steps).value.flush == None
    requires IsPost(y.change) && !IsOwnMessage(y.change) && !y.superseded && WasRefused(y) && y.userId != ""
    requires freshKey !in Run(steps).value.hist.keys && freshKey !in Run(steps).value.server.answers && freshKey !in Run(steps).value.server.messages
    ensures Run(more).Some?
    ensures Run(more).value.server.posts == Run(steps).value.server.posts + [OwnerOf(Origin(y), y.change)]
  {
    var s, z := Run(steps).value, Retried(y, freshKey);
    RunSnoc(steps, RetryItem(y.id, freshKey));
    more := steps + [RetryItem(y.id, freshKey)];
    assert Run(more).value.queue == [z];
    more := SendAlone(more, z);
    var r := RequestOf(z);
    RunSnoc(more, Accept(r));
    more := more + [Accept(r)];
  }

  /** A change reaches the server, every answer is a 408, it is given up and retried, and the retry's new key applies it again. */
  lemma TwiceAfter408(c: Change) returns (steps: seq<Step>)
    requires IsPost(c) && !IsOwnMessage(c)
    ensures Run(steps).Some? && Run(steps).value.server.posts == [OwnerOf("k", c), OwnerOf("k", c)]
  {
    var kept, x := AppliedButKept(c);
    var tried, y := TimedOutTries(kept, x);
    steps := AppliedAgain(tried, y, "k2");
  }

  /** So a checklist item is there twice. */
  lemma AppliedTwiceAfter408() returns (steps: seq<Step>)
    ensures Run(steps).Some?
    ensures var posts := Run(steps).value.server.posts; |posts| == 2 && posts[0] == posts[1] == Owner("k", true, None)
  {
    steps := TwiceAfter408(ChecklistAdd("t", "Call the supplier"));
  }

  /** And so is a chat message queued without an id of its own: the server stores it under either key. */
  lemma StoredTwiceAfter408() returns (steps: seq<Step>)
    ensures Run(steps).Some? && Run(steps).value.server.posts == [OwnerOf("k", ChatSend("c", "Hello", None)), OwnerOf("k", ChatSend("c", "Hello", None))]
  {
    var c := ChatSend("c", "Hello", None);
    steps := TwiceAfter408(c);
  }
}
