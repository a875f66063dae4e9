/** What each change does on the server to the things a later change can overwrite. */
module ServerCells {
  import opened Lists
  import opened Edits
  import opened Changes
  import Tags

  datatype Content = Content(
    tags: map<string, seq<string>>,
    people: set<(string, string)>,
    watched: set<string>,
    comments: map<string, string>,
    contacts: map<string, Fields>,
    columns: map<string, string>,
    answers: map<(string, string), string>)

  /** What a cell shows. */
  datatype Reading = Flag(on: bool) | Words(text: Option<string>) | Value(value: Option<Json>)

  function TagsOf(s: Content, task: string): seq<string> {
    if task in s.tags then s.tags[task] else []
  }

  function Read(s: Content, cell: Cell): Reading {
    match cell
    case TagCell(task, key) => Flag(key in Tags.KeysOf(TagsOf(s, task)))
    case PersonCell(task, user) => Flag((task, user) in s.people)
    case WatchCell(task) => Flag(task in s.watched)
    case CommentCell(comment) => Words(if comment in s.comments then Some(s.comments[comment]) else None)
    case ContactCell(contact, field) =>
      Value(if contact in s.contacts && field in s.contacts[contact] then Some(s.contacts[contact][field]) else None)
    case ColumnCell(task) => Words(if task in s.columns then Some(s.columns[task]) else None)
    case AnswerCell(meeting, attendee) => Words(if (meeting, attendee) in s.answers then Some(s.answers[(meeting, attendee)]) else None)
  }

  /** The whole list a change of tags is sent as: its own additions and removals over the list read just before. */
  function TagsToSend(read: seq<string>, c: Change): seq<string>
    requires c.TaskTags?
  {
    match c.base
    case Some(base) => Tags.Merged(read, base, c.tags)
    case None => c.tags
  }

  /**
    * The server's side of an accepted change; one of a comment or contact that is gone changes nothing. A change of
    * tags was merged over the list `read` in an earlier request: others may have changed it since.
    */
  function Serve(s: Content, c: Change, read: seq<string>): Content {
    match c
    case TaskTags(id, _, _) => s.(tags := s.tags[id := TagsToSend(read, c)])
    case TaskAssign(id, userIds) => s.(people := s.people + (set u | u in userIds :: (id, u)))
    case TaskUnassign(id, user) => s.(people := s.people - {(id, user)})
    case TaskWatch(id) => s.(watched := s.watched + {id})
    case TaskUnwatch(id) => s.(watched := s.watched - {id})
    case CommentUpdate(_, comment, body) => if comment in s.comments then s.(comments := s.comments[comment := body]) else s
    case CommentDelete(_, comment) => s.(comments := s.comments - {comment})
    case ContactUpdate(_, contact, patch) =>
      if contact in s.contacts then s.(contacts := s.contacts[contact := s.contacts[contact] + patch]) else s
    case ContactDelete(_, contact) => s.(contacts := s.contacts - {contact})
    case TaskMove(id, column, _) => s.(columns := s.columns[id := column])
    case MeetingRespond(meeting, attendee, response) => s.(answers := s.answers[(meeting, attendee) := response])
    case _ => s
  }

  /** Tag names the cap doesn't cut at a space, as the merge laws need them. */
  predicate CleanTags(c: Change, read: seq<string>) {
    c.TaskTags? ==> Tags.NoneCut(c.tags) && (c.base.Some? ==> Tags.NoneCut(read))
  }

  /** A blank key stands for no tag. */
  predicate IsThing(cell: Cell) {
    cell.TagCell? ==> cell.key != ""
  }

  lemma MergedKey(current: seq<string>, base: seq<string>, next: seq<string>, key: string)
    requires Tags.NoneCut(current) && Tags.NoneCut(next) && key != ""
    ensures key in Tags.KeysOf(Tags.Merged(current, base, next)) <==>
      if key in Tags.Touched(base, next) then key in Tags.KeysOf(next) else key in Tags.KeysOf(current)
  {
    Tags.MergeKeys(current, base, next);
    Tags.MergedTidy(current, base, next);
  }

  /** The cell is a tag of the task whose tags the change sends. */
  predicate IsSent(c: Change, cell: Cell) {
    c.TaskTags? && cell.TagCell? && cell.task == c.id
  }

  /** The list read shows this tag as the task's list does now. */
  predicate ReadRightly(s: Content, c: Change, read: seq<string>, cell: Cell) {
    IsSent(c, cell) ==> (cell.key in Tags.KeysOf(read) <==> cell.key in Tags.KeysOf(TagsOf(s, c.id)))
  }

  /** A cell a change doesn't touch ends as it is, or for a tag as it was read. */
  lemma UntouchedIsAsRead(s: Content, c: Change, read: seq<string>, cell: Cell)
    requires !Touches(c, cell) && IsThing(cell) && CleanTags(c, read)
    ensures Read(Serve(s, c, read), cell) == if IsSent(c, cell) then Flag(cell.key in Tags.KeysOf(read)) else Read(s, cell)
  {
    if IsSent(c, cell) {
      MergedKey(read, c.base.value, c.tags, cell.key);
    } else {
      NotSentStays(s, c, read, cell);
    }
  }

  lemma NotSentStays(s: Content, c: Change, read: seq<string>, cell: Cell)
    requires !Touches(c, cell) && !IsSent(c, cell)
    ensures Read(Serve(s, c, read), cell) == Read(s, cell)
  {
    if cell.CommentCell? || cell.ContactCell? { OwnThing(s, c, read, cell); }
  }

  lemma OwnThing(s: Content, c: Change, read: seq<string>, cell: Cell)
    requires !Touches(c, cell) && (cell.CommentCell? || cell.ContactCell?)
    ensures Read(Serve(s, c, read), cell) == Read(s, cell)
  {
  }

  /** A change leaves a cell it doesn't touch as it is if and only if that isn't a tag others changed after it was read. */
  lemma UntouchedStays(s: Content, c: Change, read: seq<string>, cell: Cell)
    requires !Touches(c, cell) && IsThing(cell) && CleanTags(c, read)
    ensures Read(Serve(s, c, read), cell) == Read(s, cell) <==> ReadRightly(s, c, read, cell)
  {
    UntouchedIsAsRead(s, c, read, cell);
  }

  /** A tag somebody else puts on between the reading and the sending is taken off, though the change doesn't touch it. */
  lemma LostBetween() returns (s: Content, c: Change, read: seq<string>, cell: Cell)
    ensures !Touches(c, cell) && IsThing(cell) && CleanTags(c, read)
    ensures Read(s, cell) == Flag(true) && Read(Serve(s, c, read), cell) == Flag(false)
  {
    var mine, theirs := "a", "b";
    read, c := [], TaskTags("t", Some([]), [mine]);
    s := Content(map["t" := [theirs]], {}, {}, map[], map[], map[], map[]);
    cell := TagCell("t", "b");
    Tags.CollapseFixes(mine);
    Tags.CollapseFixes(theirs);
    assert Tags.TagKey(mine) == "a" && Tags.TagKey(theirs) == "b";
    assert Tags.TagKey(TagsOf(s, "t")[0]) in Tags.KeysOf(TagsOf(s, "t"));
    UntouchedIsAsRead(s, c, read, cell);
  }

  /** The comment or contact a change is about is still there. */
  predicate ThingExists(s: Content, c: Change) {
    && (c.CommentUpdate? ==> c.commentId in s.comments)
    && (c.ContactUpdate? ==> c.contactId in s.contacts)
  }

  /** What a change wants a cell it touches to show. */
  function Wanted(c: Change, cell: Cell): Reading
    requires Touches(c, cell)
  {
    match cell
    case TagCell(_, key) => Flag(key in Tags.KeysOf(c.tags))
    case PersonCell(_, _) => Flag(c.TaskAssign?)
    case WatchCell(_) => Flag(c.TaskWatch?)
    case CommentCell(_) => Words(if c.CommentUpdate? then Some(c.body) else None)
    case ContactCell(_, field) => Value(if c.ContactUpdate? then Some(c.patch[field]) else None)
    case ColumnCell(_) => Words(Some(c.columnId))
    case AnswerCell(_, _) => Words(Some(c.response))
  }

  /** A cell a change touches ends as that change wants it, whatever it showed before, and whatever was read. */
  lemma TouchedIsSet(s: Content, c: Change, read: seq<string>, cell: Cell)
    requires Touches(c, cell) && IsThing(cell) && CleanTags(c, read) && ThingExists(s, c)
    ensures Read(Serve(s, c, read), cell) == Wanted(c, cell)
  {
    if cell.TagCell? { TagIsSet(s, c, read, cell); } else { OtherIsSet(s, c, read, cell); }
  }

  lemma TagIsSet(s: Content, c: Change, read: seq<string>, cell: Cell)
    requires Touches(c, cell) && cell.TagCell? && IsThing(cell) && CleanTags(c, read)
    ensures Read(Serve(s, c, read), cell) == Wanted(c, cell)
  {
    if c.base.Some? { MergedKey(read, c.base.value, c.tags, cell.key); }
  }

  lemma OtherIsSet(s: Content, c: Change, read: seq<string>, cell: Cell)
    requires Touches(c, cell) && !cell.TagCell? && ThingExists(s, c)
    ensures Read(Serve(s, c, read), cell) == Wanted(c, cell)
  {
  }

  lemma CleanLeft(user: string, done: Change, older: Item, read: seq<string>)
    requires CleanTags(older.change, read)
    ensures CleanTags(Supersede(user, done, older).change, read)
  {
    var rest := Supersede(user, done, older).change;
    SupersedeShape(user, done, older);
    if rest != older.change && older.change.TaskTags? {
      FilterMembers(older.change.tags, Tags.Outside(TagsTouched(done).value));
      forall i | 0 <= i < |rest.tags| ensures !Tags.CutAtSpace(rest.tags[i]) {
        assert rest.tags[i] in older.change.tags;
      }
    }
  }

  lemma TagsWantAlike(done: Change, older: Item, cell: Cell)
    requires done.TaskTags? && older.change.TaskTags?
    requires var rest := SupersedeTags(done, older).change; Touches(rest, cell) && Touches(older.change, cell) && !Touches(done, cell)
    requires done.id == older.change.id
    ensures Wanted(SupersedeTags(done, older).change, cell) == Wanted(older.change, cell)
  {
    if SupersedeTags(done, older).change != older.change {
      Tags.AdditionsKeys(older.change.tags, TagsTouched(done).value);
    }
  }

  lemma PeopleWantAlike(done: Change, older: Item, cell: Cell)
    requires LaneOf(done) == PeopleLane == LaneOf(older.change) && done.id == older.change.id && !older.superseded
    requires var rest := SupersedePeople(done, older).change; Touches(rest, cell) && Touches(older.change, cell)
    ensures Wanted(SupersedePeople(done, older).change, cell) == Wanted(older.change, cell)
  {
    TrimPeople(done, older);
    PersonCells(older.change);
  }

  lemma ContactWantsAlike(done: Change, older: Item, cell: Cell)
    requires LaneOf(done) == ContactLane == LaneOf(older.change)
    requires var rest := SupersedeContact(done, older).change; Touches(rest, cell) && Touches(older.change, cell)
    ensures Wanted(SupersedeContact(done, older).change, cell) == Wanted(older.change, cell)
  {
  }

  /** The rest of a change wants the cells it still touches to show what the whole change wanted. */
  lemma RestWantsAlike(user: string, done: Change, older: Item, cell: Cell)
    requires var rest := Supersede(user, done, older).change; Touches(rest, cell) && Touches(older.change, cell) && !Touches(done, cell)
    ensures Wanted(Supersede(user, done, older).change, cell) == Wanted(older.change, cell)
  {
    if !Supersedes(user, done, older) {
      NotSuperseded(user, done, older);
    } else {
      WhatSupersedes(user, done, older);
      match LaneOf(done)
      case TagsLane => TagsWantAlike(done, older, cell);
      case PeopleLane => PeopleWantAlike(done, older, cell);
      case ContactLane => ContactWantsAlike(done, older, cell);
      case _ =>
    }
  }

  /**
    * The server's view of superseding: after `done`, what is left of an older failed change does to every cell `done`
    * didn't touch what the whole older change would have done. And it puts back nothing `done` set, unless that is a
    * tag, and the list it is merged over was read when the tag was not as it is now.
    */
  lemma SupersededLeavesDone(s: Content, user: string, done: Change, older: Item, read: seq<string>, cell: Cell)
    requires older.status == Failed && !older.superseded && older.userId == user
    requires !done.TaskDelete? && MustFollow(done, older.change) && !KeptRemoval(done, older.change)
    requires !Supersede(user, done, older).superseded && CleanTags(older.change, read) && ThingExists(s, older.change)
    requires IsThing(cell)
    ensures var rest := Supersede(user, done, older).change;
      if Touches(done, cell) then Read(Serve(s, rest, read), cell) == Read(s, cell) <==> ReadRightly(s, rest, read, cell)
      else Read(Serve(s, rest, read), cell) == Read(Serve(s, older.change, read), cell)
  {
    var rest := Supersede(user, done, older).change;
    SupersedeTrims(user, done, older);
    CleanLeft(user, done, older, read);
    if Touches(done, cell) {
      UntouchedStays(s, rest, read, cell);
    } else if !Touches(rest, cell) {
      SameSending(user, done, older, cell);
      UntouchedIsAsRead(s, rest, read, cell);
      UntouchedIsAsRead(s, older.change, read, cell);
    } else {
      RestWantsAlike(user, done, older, cell);
      RestExists(s, user, done, older);
      TouchedIsSet(s, rest, read, cell);
      TouchedIsSet(s, older.change, read, cell);
    }
  }

  /** Superseding leaves a change of one thing about that thing. */
  lemma SameThing(user: string, done: Change, older: Item)
    ensures var rest, c := Supersede(user, done, older).change, older.change;
      && (rest.TaskTags? <==> c.TaskTags?) && (c.TaskTags? ==> rest.id == c.id)
      && (rest.CommentUpdate? ==> rest == c)
      && (rest.ContactUpdate? ==> c.ContactUpdate? && rest.contactId == c.contactId)
  {
    if Supersedes(user, done, older) {
      WhatSupersedes(user, done, older);
      if LaneOf(done) == PeopleLane { TrimPeople(done, older); }
    } else {
      NotSuperseded(user, done, older);
    }
  }

  lemma SameSending(user: string, done: Change, older: Item, cell: Cell)
    ensures IsSent(Supersede(user, done, older).change, cell) <==> IsSent(older.change, cell)
  {
    SameThing(user, done, older);
  }

  lemma RestExists(s: Content, user: string, done: Change, older: Item)
    requires ThingExists(s, older.change)
    ensures ThingExists(s, Supersede(user, done, older).change)
  {
    SameThing(user, done, older);
  }

  // ---- The order kept is enough -----------------------------------------------------------------

  /** The payloads name what they are about, and a comment or contact is of one task. */
  predicate WellNamed(a: Change, b: Change) {
    && SubjectOf(a).Some? && SubjectOf(b).Some?
    && ((a.CommentUpdate? || a.CommentDelete?) && (b.CommentUpdate? || b.CommentDelete?) && a.commentId == b.commentId ==> a.id == b.id)
    && ((a.ContactUpdate? || a.ContactDelete?) && (b.ContactUpdate? || b.ContactDelete?) && a.contactId == b.contactId ==> a.id == b.id)
  }

  function LaneOfCell(cell: Cell): Lane {
    match cell
    case TagCell(_, _) => TagsLane
    case PersonCell(_, _) => PeopleLane
    case WatchCell(_) => WatchLane
    case CommentCell(_) => CommentLane
    case ContactCell(_, _) => ContactLane
    case ColumnCell(_) => VersionLane
    case AnswerCell(_, _) => AnswerLane
  }

  /** A cell tells the lane of a change that touches it, and what the change is about but for its task. */
  lemma CellTells(c: Change, cell: Cell)
    requires Touches(c, cell)
    ensures LaneOf(c) == LaneOfCell(cell) && !c.TaskDelete? && !c.ContactAdd?
    ensures match cell
      case CommentCell(comment) => OneOf(c) == Some(comment)
      case ContactCell(contact, _) => OneOf(c) == Some(contact)
      case AnswerCell(meeting, attendee) => c.meetingId == meeting && c.attendeeId == attendee
      case _ => c.id == cell.task
  {
  }

  lemma CellSubject(a: Change, b: Change, cell: Cell)
    requires WellNamed(a, b) && Touches(a, cell) && Touches(b, cell)
    ensures SubjectOf(a) == SubjectOf(b)
  {
    CellTells(a, cell);
    CellTells(b, cell);
  }

  lemma SharedFollows(a: Change, b: Change, cell: Cell)
    requires WellNamed(a, b) && Touches(a, cell) && Touches(b, cell)
    ensures MustFollow(a, b)
  {
    CellTells(a, cell);
    CellTells(b, cell);
    CellSubject(a, b, cell);
  }

  /** Changes that touch one thing are kept in order. */
  lemma SharedIsOrdered(a: Change, b: Change, cell: Cell)
    requires WellNamed(a, b) && Touches(a, cell) && Touches(b, cell)
    ensures MustFollow(a, b) && MustFollow(b, a)
  {
    SharedFollows(a, b, cell);
    SharedFollows(b, a, cell);
  }

  /** No change brings a comment or contact back, and one not ordered with `a` leaves the tags `a` would read. */
  lemma NothingAppears(s: Content, b: Change, read: seq<string>)
    ensures Serve(s, b, read).comments.Keys <= s.comments.Keys && Serve(s, b, read).contacts.Keys <= s.contacts.Keys
    ensures forall task :: !(b.TaskTags? && b.id == task) ==> TagsOf(Serve(s, b, read), task) == TagsOf(s, task)
  {
  }

  /** A change whose comment or contact is gone does nothing, before or after another change. */
  lemma GoneDoesNothing(s: Content, a: Change, readA: seq<string>, b: Change, readB: seq<string>)
    requires !ThingExists(s, a)
    ensures Serve(s, a, readA) == s && Serve(Serve(s, b, readB), a, readA) == Serve(s, b, readB)
  {
    NothingAppears(s, b, readB);
  }

  /** A change not ordered with `a` leaves the comment or contact `a` is about. */
  lemma StillThere(s: Content, a: Change, b: Change, readB: seq<string>)
    requires WellNamed(a, b) && !MustFollow(a, b) && ThingExists(s, a)
    ensures ThingExists(Serve(s, b, readB), a)
  {
  }

  /** And the tags it reads. */
  lemma SameRead(s: Content, a: Change, b: Change, readB: seq<string>)
    requires WellNamed(a, b) && !MustFollow(a, b) && a.TaskTags?
    ensures TagsOf(Serve(s, b, readB), a.id) == TagsOf(s, a.id)
  {
    NothingAppears(s, b, readB);
  }

  /** What one change leaves the other leaves. */
  lemma Between(s: Content, a: Change, b: Change, readB: seq<string>, cell: Cell)
    requires WellNamed(a, b) && !MustFollow(a, b) && !Touches(b, cell) && IsThing(cell) && CleanTags(b, readB)
    requires Touches(a, cell) || IsSent(a, cell)
    ensures Read(Serve(s, b, readB), cell) == Read(s, cell)
  {
    NotSent(a, b, cell);
    UntouchedIsAsRead(s, b, readB, cell);
  }

  lemma NotSent(a: Change, b: Change, cell: Cell)
    requires WellNamed(a, b) && !MustFollow(a, b) && (Touches(a, cell) || IsSent(a, cell))
    ensures !IsSent(b, cell)
  {
  }

  lemma OneTouches(s: Content, a: Change, readA: seq<string>, b: Change, readB: seq<string>, cell: Cell)
    requires WellNamed(a, b) && !MustFollow(a, b) && !MustFollow(b, a) && IsThing(cell) && Touches(a, cell)
    requires CleanTags(a, readA) && CleanTags(b, readB) && ThingExists(s, a)
    ensures Read(Serve(Serve(s, a, readA), b, readB), cell) == Read(Serve(Serve(s, b, readB), a, readA), cell) == Wanted(a, cell)
  {
    if Touches(b, cell) { SharedIsOrdered(a, b, cell); }
    StillThere(s, a, b, readB);
    TouchedIsSet(s, a, readA, cell);
    Between(Serve(s, a, readA), a, b, readB, cell);
    TouchedIsSet(Serve(s, b, readB), a, readA, cell);
  }

  lemma NoneTouches(s: Content, a: Change, readA: seq<string>, b: Change, readB: seq<string>, cell: Cell)
    requires WellNamed(a, b) && !MustFollow(a, b) && IsThing(cell) && !Touches(a, cell) && !Touches(b, cell)
    requires CleanTags(a, readA) && CleanTags(b, readB)
    ensures Read(Serve(Serve(s, a, readA), b, readB), cell) == Read(Serve(Serve(s, b, readB), a, readA), cell)
  {
    UntouchedIsAsRead(s, a, readA, cell);
    UntouchedIsAsRead(Serve(s, a, readA), b, readB, cell);
    UntouchedIsAsRead(s, b, readB, cell);
    UntouchedIsAsRead(Serve(s, b, readB), a, readA, cell);
  }

  /**
    * Two changes, neither of which must follow the other, can be sent in either order: whatever lists of tags they
    * were merged over, the server ends the same, and each would read the same list before the other or after it.
    */
  lemma OrderIsFree(s: Content, a: Change, readA: seq<string>, b: Change, readB: seq<string>, cell: Cell)
    requires WellNamed(a, b) && WellNamed(b, a) && !MustFollow(a, b) && !MustFollow(b, a)
    requires CleanTags(a, readA) && CleanTags(b, readB) && IsThing(cell)
    ensures Read(Serve(Serve(s, a, readA), b, readB), cell) == Read(Serve(Serve(s, b, readB), a, readA), cell)
    ensures a.TaskTags? ==> TagsOf(Serve(s, b, readB), a.id) == TagsOf(s, a.id)
    ensures b.TaskTags? ==> TagsOf(Serve(s, a, readA), b.id) == TagsOf(s, b.id)
  {
    if a.TaskTags? { SameRead(s, a, b, readB); }
    if b.TaskTags? { SameRead(s, b, a, readA); }
    if !ThingExists(s, a) {
      GoneDoesNothing(s, a, readA, b, readB);
    } else if !ThingExists(s, b) {
      GoneDoesNothing(s, b, readB, a, readA);
    } else if Touches(a, cell) {
      OneTouches(s, a, readA, b, readB, cell);
    } else if Touches(b, cell) {
      OneTouches(s, b, readB, a, readA, cell);
    } else {
      NoneTouches(s, a, readA, b, readB, cell);
    }
  }

  /** And two of one thing cannot: here sending them in the other order shows the older one, whatever either read. */
  lemma OrderMatters(s: Content, a: Change, readA: seq<string>, b: Change, readB: seq<string>, cell: Cell)
    requires Touches(a, cell) && Touches(b, cell) && IsThing(cell) && Wanted(a, cell) != Wanted(b, cell)
    requires CleanTags(a, readA) && CleanTags(b, readB)
    requires ThingExists(Serve(s, a, readA), b) && ThingExists(Serve(s, b, readB), a)
    ensures Read(Serve(Serve(s, a, readA), b, readB), cell) != Read(Serve(Serve(s, b, readB), a, readA), cell)
  {
    TouchedIsSet(Serve(s, a, readA), b, readB, cell);
    TouchedIsSet(Serve(s, b, readB), a, readA, cell);
  }
}
