/** What `StaleUndo` assumes of Retry is needed: any other Retry of an older change lets it undo a newer one. */
module RetriedUndo {
  import opened Lists
  import opened Changes
  import opened QueueWrites
  import opened Protocol
  import opened StepItems
  import opened Ordering
  import opened Continuations
  import opened StaleUndo
  import AtMostOnce
  import ServerCells
  import Tags

  /** A change of the same thing that wants it otherwise; a contact's removal has only itself to be followed by. */
  function Rival(c: Change): Change
    requires SubjectOf(c).Some?
  {
    match c
    case TaskTags(id, Some(base), tags) => TaskTags(id, Some(tags), base)
    case TaskTags(id, None, tags) => TaskTags(id, None, if tags == [] then ["a"] else [])
    case TaskAssign(id, people) => TaskUnassign(id, if people == [] then "" else people[0])
    case TaskUnassign(id, person) => TaskAssign(id, [person])
    case TaskWatch(id) => TaskUnwatch(id)
    case TaskUnwatch(id) => TaskWatch(id)
    case CommentUpdate(id, comment, _) => CommentDelete(id, comment)
    case CommentDelete(id, comment) => CommentUpdate(id, comment, "")
    case ContactUpdate(id, contact, _) => ContactDelete(id, contact)
    case TaskMove(id, column, category) => TaskMove(id, column + "x", category)
    case MeetingRespond(meeting, attendee, response) => MeetingRespond(meeting, attendee, response + "x")
    case _ => c
  }

  /** They set one cell, each to its own. */
  ghost predicate Clash(done: Change, c: Change) {
    exists cell :: Touches(done, cell) && Touches(c, cell) && (c.ContactDelete? || ServerCells.Wanted(done, cell) != ServerCells.Wanted(c, cell))
  }

  lemma ClashAt(done: Change, c: Change, cell: Cell)
    requires Touches(done, cell) && Touches(c, cell) && (c.ContactDelete? || ServerCells.Wanted(done, cell) != ServerCells.Wanted(c, cell))
    ensures Clash(done, c)
  {
  }

  lemma TagsRival(c: Change)
    requires c.TaskTags? && SubjectOf(c).Some? && Sets(c)
    ensures Clash(Rival(c), c)
  {
    var key;
    if c.base.Some? {
      var cell :| Touches(c, cell);
      key := cell.key;
    } else {
      key := Tags.TagKey(if c.tags == [] then "a" else c.tags[0]);
      assert c.tags != [] ==> Tags.TagKey(c.tags[0]) in Tags.KeysOf(c.tags);
      assert Tags.TagKey(["a"][0]) in Tags.KeysOf(["a"]);
    }
    ClashAt(Rival(c), c, TagCell(c.id, key));
  }

  lemma RivalFollows(c: Change)
    requires SubjectOf(c).Some? && Sets(c)
    ensures MustFollow(Rival(c), c) && IsOrdered(Rival(c)) && !Rival(c).TaskUpdate? && !KeptRemoval(Rival(c), c)
  {
  }

  lemma RivalClashes(c: Change)
    requires SubjectOf(c).Some? && Sets(c)
    ensures Clash(Rival(c), c)
  {
    match c
    case TaskTags(_, _, _) => TagsRival(c);
    case TaskAssign(id, people) => ClashAt(Rival(c), c, PersonCell(id, people[0]));
    case TaskUnassign(id, person) => ClashAt(Rival(c), c, PersonCell(id, person));
    case TaskWatch(id) => ClashAt(Rival(c), c, WatchCell(id));
    case TaskUnwatch(id) => ClashAt(Rival(c), c, WatchCell(id));
    case CommentUpdate(_, comment, _) => ClashAt(Rival(c), c, CommentCell(comment));
    case CommentDelete(_, comment) => ClashAt(Rival(c), c, CommentCell(comment));
    case ContactUpdate(_, contact, patch) =>
      var cell :| Touches(c, cell);
      ClashAt(Rival(c), c, cell);
    case ContactDelete(_, contact) => ClashAt(Rival(c), c, ContactCell(contact, ""));
    case TaskMove(id, _, _) => ClashAt(Rival(c), c, ColumnCell(id));
    case MeetingRespond(meeting, attendee, _) => ClashAt(Rival(c), c, AnswerCell(meeting, attendee));
    case _ =>
  }

  lemma PickedBehind(s: State, y: Item, e: Item) returns (sent: State)
    requires s.queue == [y, e] && y.id != e.id && y.id in s.hist.enqueued && e.id in s.hist.enqueued && Enabled(s, Pick) && Picked(s) == e
    ensures sent == Apply(s, Pick) && sent.queue == s.queue && sent.server == s.server && sent.hist.ahead == s.hist.ahead
    ensures InvIds(sent) && CurrentItem(sent) == Some(e) && RequestOf(e) in sent.net
  {
    sent := Apply(s, Pick);
  }

  lemma SucceedsOver(s: State, y: Item, e: Item, made: Option<int>)
    requires CurrentItem(s) == Some(e) && (RequestOf(e), made) in s.server.replies && y.id != e.id
    requires e.userId == y.userId && MustFollow(e.change, y.change) && y.id in AheadOf(s, e.id)
    ensures Enabled(s, ReplayOk(made)) && !Takes(s, ReplayOk(made), y.id) && GoesOver(s, ReplayOk(made), e.change, y)
  {
  }

  /** What is being replayed succeeds: it goes over `y`, which waits. */
  lemma FlightGoesOver(s: State, y: Item, e: Item, cell: Cell) returns (steps: seq<Step>, t: State)
    requires InvIds(s) && y in s.queue && y.id != e.id && CurrentItem(s) == Some(e) && RequestOf(e) in s.net
    requires y.status == Pending && e.userId == y.userId && MustFollow(e.change, y.change) && e.idempotencyKey !in s.server.answers
    requires y.id in AheadOf(s, e.id) && Touches(e.change, cell) && Touches(y.change, cell)
    ensures Leads(s, steps) == Some(t) && NoRetry(steps) && InvIds(t) && y in t.queue && (y.id, e.change) in t.hist.over
  {
    var landed, made := Lands(s, RequestOf(e), cell);
    SucceedsOver(landed, y, e, made);
    t := TwoSteps(s, RequestOf(e), ReplayOk(made), y, e.change, cell);
    steps := [Accept(RequestOf(e)), ReplayOk(made)];
    NoRetryTwo(Accept(RequestOf(e)), ReplayOk(made));
  }

  /** The change queued behind `y` is picked, and succeeds. */
  lemma BehindGoesOver(s: State, y: Item, e: Item, cell: Cell) returns (steps: seq<Step>, t: State)
    requires s.queue == [y, e] && y.id != e.id && y.id in s.hist.enqueued && e.id in s.hist.enqueued
    requires Enabled(s, Pick) && Picked(s) == e && y.status == Pending && e.userId == y.userId && MustFollow(e.change, y.change)
    requires y.id in AheadOf(s, e.id) && e.idempotencyKey !in s.server.answers
    requires Touches(e.change, cell) && Touches(y.change, cell)
    ensures Leads(s, steps) == Some(t) && NoRetry(steps) && InvIds(t) && y in t.queue && (y.id, e.change) in t.hist.over
  {
    var sent := PickedBehind(s, y, e);
    var rest;
    rest, t := FlightGoesOver(sent, y, e, cell);
    LeadsFirst(s, Pick, rest);
    steps := [Pick] + rest;
  }

  /** Put back alone while the flush goes on, a change is followed by its rival, which succeeds first. */
  lemma RivalGoesOver(s: State, y: Item, key: string, b: string) returns (steps: seq<Step>, t: State)
    requires s.queue == [y] && y.status == Pending && y.userId != "" && SubjectOf(y.change).Some? && Sets(y.change)
    requires s.flush.Some? && s.flush.value.current.None? && s.flush.value.user == y.userId
    requires y.id in s.flush.value.tried && y.id in s.hist.enqueued && b !in s.flush.value.tried
    requires key !in s.hist.keys && b !in s.hist.enqueued && key !in s.server.answers
    ensures Leads(s, steps) == Some(t) && NoRetry(steps) && InvIds(t) && y in t.queue && (y.id, Rival(y.change)) in t.hist.over
  {
    var c := Rival(y.change);
    RivalFollows(y.change);
    var cell := RivalCell(y.change);
    var behind, u := FollowedFirst(s, y, c, key, b);
    var e := NewItem(b, c, y.userId, key);
    assert u.queue == [y, e] && y.id in AheadOf(u, b);
    var rest;
    rest, t := BehindGoesOver(u, y, e, cell);
    LeadsFirst(s, behind, rest);
    NoRetryFirst(behind, rest);
    steps := [behind] + rest;
  }

  lemma RivalCell(c: Change) returns (cell: Cell)
    requires SubjectOf(c).Some? && Sets(c)
    ensures Touches(Rival(c), cell) && Touches(c, cell)
  {
    RivalClashes(c);
    cell :| Touches(Rival(c), cell) && Touches(c, cell);
  }

  /** So is one the running flush has tried. */
  lemma TriedUndoes(s: State, x: Item, freshKey: string, key: string, b: string) returns (more: seq<Step>, t: State, done: Change)
    requires InvIds(s) && InvUsers(s) && x in s.queue && !x.superseded && SubjectOf(x.change).Some? && Sets(x.change)
    requires s.flush.Some? && x.id in s.flush.value.tried && (CurrentItem(s).Some? ==> CurrentItem(s).value.id != x.id)
    requires freshKey !in s.hist.keys && key !in s.hist.keys && key != freshKey && b !in s.hist.enqueued && key !in s.server.answers
    ensures NoRetry(more) && Leads(s, [RetryItem(x.id, freshKey)] + more) == Some(t)
    ensures Enabled(t, Pick) && Picked(t).id == x.id && (x.id, done) in t.hist.over
    ensures Clash(done, Picked(t).change) && !KeptRemoval(done, Picked(t).change)
  {
    var alone, u, y := RetriedAlone(s, x, freshKey);
    RivalFollows(x.change);
    RivalClashes(x.change);
    done := Rival(x.change);
    var rest;
    rest, t := SentAfterRival(u, y, key, b);
    LeadsOn(s, [RetryItem(x.id, freshKey)] + alone, rest);
    more := alone + rest;
    Regrouped(RetryItem(x.id, freshKey), alone, rest);
  }

  lemma Regrouped(first: Step, a: seq<Step>, b: seq<Step>)
    ensures [first] + a + b == [first] + (a + b)
  {
  }

  lemma SentAfterRival(s: State, y: Item, key: string, b: string) returns (steps: seq<Step>, t: State)
    requires s.queue == [y] && y.status == Pending && y.userId != "" && SubjectOf(y.change).Some? && Sets(y.change)
    requires s.flush.Some? && s.flush.value.current.None? && s.flush.value.user == y.userId
    requires y.id in s.flush.value.tried && y.id in s.hist.enqueued && b !in s.flush.value.tried
    requires key !in s.hist.keys && b !in s.hist.enqueued && key !in s.server.answers
    ensures Leads(s, steps) == Some(t) && NoRetry(steps) && Enabled(t, Pick) && Picked(t) == y && (y.id, Rival(y.change)) in t.hist.over
  {
    var win, won := RivalGoesOver(s, y, key, b);
    var send;
    send, t := SendsIt(won, y);
    LeadsOn(s, win, send);
    steps := win + send;
  }

  /**
    * The assumption on Retry is exact. In any state of an undisturbed run, a Retry that disturbs it lets the retried
    * change undo a newer one: after some later steps, none of them a Retry, the newer one has succeeded, and the
    * older one is sent, setting something that one set.
    */
  lemma RetryLetsUndo(states: seq<State>, steps: seq<Step>, n: nat, id: string, freshKey: string, key: string, b: string)
    returns (more: seq<Step>, t: State, done: Change)
    requires UndisturbedTrace(states, steps) && n <= |steps|
    requires Enabled(states[n], RetryItem(id, freshKey)) && !Undisturbed(states[n], RetryItem(id, freshKey))
    requires key !in states[n].hist.keys && key != freshKey && b !in states[n].hist.enqueued
    ensures NoRetry(more) && Leads(states[n], [RetryItem(id, freshKey)] + more) == Some(t)
    ensures Enabled(t, Pick) && Picked(t).id == id && (id, done) in t.hist.over
    ensures !Apart(done, Picked(t).change) && !KeptRemoval(done, Picked(t).change)
  {
    var s := states[n];
    StaleInvariant(states, steps, n);
    SentInvariant(states, steps, n);
    UsersInvariant(states, steps, n);
    HoldsMember(s.queue, id);
    var x := s.queue[IndexOf(s.queue, id)];
    if RetriesUnder(s, id) {
      more, t, done := RetriedUndoes(s, x, freshKey);
    } else {
      AtMostOnce.OwnersInvariant(states, steps, n);
      more, t, done := TriedUndoes(s, x, freshKey, key, b);
    }
  }
}
