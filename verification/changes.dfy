/**
  * Queued changes and how they follow, replace and rebase each other (Extension/src/task-writes.js).
  */
module Changes {
  import opened Edits
  import opened Lists
  import Tags

  datatype Option<+T> = None | Some(value: T)

  /** A change as the queue keeps it: its kind and payload. */
  datatype Change =
    | TaskCreate(draft: Fields)
    | TaskMove(id: string, columnId: string, columnCategory: string)
    | TaskUpdate(id: string, patch: Fields, expectedVersion: Option<int>)
    | TaskAssign(id: string, userIds: seq<string>)
    | TaskUnassign(id: string, userId: string)
    | TaskTags(id: string, base: Option<seq<string>>, tags: seq<string>)
    | TaskWatch(id: string)
    | TaskUnwatch(id: string)
    | TaskDelete(id: string, series: bool, seriesId: string)
    | CommentAdd(id: string, body: string)
    | CommentUpdate(id: string, commentId: string, body: string)
    | CommentDelete(id: string, commentId: string)
    | AttachmentDelete(id: string, attachmentId: string)
    | ChecklistAdd(id: string, text: string)
    | ChecklistUpdate(id: string, itemId: string, patch: Fields)
    | ContactAdd(id: string, contact: Fields)
    | ContactUpdate(id: string, contactId: string, patch: Fields)
    | ContactDelete(id: string, contactId: string)
    | NotificationRead(notificationId: string)
    | NotificationReadAll(upTo: Option<string>)
    | ChatSend(conversationId: string, body: string, clientId: Option<string>)
    | MeetingRespond(meetingId: string, attendeeId: string, response: string)

  datatype Status = Pending | Failed

  datatype Item = Item(
    id: string,
    change: Change,
    userId: string,
    idempotencyKey: string,
    attempts: nat,
    status: Status,
    lastStatus: Option<int>,
    superseded: bool,
    firstKey: Option<string>)

  /** Kinds sent as a POST, which carries the Idempotency-Key. */
  predicate IsPost(c: Change) {
    c.TaskCreate? || c.TaskAssign? || c.CommentAdd? || c.TaskWatch? || c.ChecklistAdd? || c.ContactAdd?
    || c.NotificationReadAll? || c.ChatSend?
  }

  /** Kinds that make a new version of their task. */
  predicate IsVersioned(c: Change) {
    c.TaskUpdate? || c.TaskMove?
  }

  /** Kinds whose payload names the task they change. */
  predicate IsOfTask(c: Change) {
    !c.TaskCreate? && !c.NotificationRead? && !c.NotificationReadAll? && !c.ChatSend? && !c.MeetingRespond?
  }

  function TaskIdOf(c: Change): Option<string> {
    if IsOfTask(c) && c.id != "" then Some(c.id) else None
  }

  /** What a change is about, for keeping changes of one thing in order. */
  datatype Subject = Task(taskId: string) | Chat(conversation: string) | Answer(meeting: string, attendee: string)

  function SubjectOf(c: Change): Option<Subject> {
    if TaskIdOf(c).Some? then Some(Task(c.id))
    else if c.ChatSend? then (if c.conversationId != "" then Some(Chat(c.conversationId)) else None)
    else if c.MeetingRespond? then
      (if c.meetingId != "" && c.attendeeId != "" then Some(Answer(c.meetingId, c.attendeeId)) else None)
    else None
  }

  datatype Lane = VersionLane | TagsLane | PeopleLane | WatchLane | CommentLane | ContactLane | ChatLane | AnswerLane | NoLane

  function LaneOf(c: Change): Lane {
    match c
    case TaskUpdate(_, _, _) => VersionLane
    case TaskMove(_, _, _) => VersionLane
    case TaskTags(_, _, _) => TagsLane
    case TaskAssign(_, _) => PeopleLane
    case TaskUnassign(_, _) => PeopleLane
    case TaskWatch(_) => WatchLane
    case TaskUnwatch(_) => WatchLane
    case CommentUpdate(_, _, _) => CommentLane
    case CommentDelete(_, _) => CommentLane
    case ContactAdd(_, _) => ContactLane
    case ContactUpdate(_, _, _) => ContactLane
    case ContactDelete(_, _) => ContactLane
    case ChatSend(_, _, _) => ChatLane
    case MeetingRespond(_, _, _) => AnswerLane
    case _ => NoLane
  }

  /** Kinds sent behind the waiting changes they must follow. */
  predicate IsOrdered(c: Change) {
    LaneOf(c) != NoLane || c.TaskDelete?
  }

  /** The one comment or contact a change of that lane is about, when its payload names it. */
  function OneOf(c: Change): Option<string> {
    if c.CommentUpdate? || c.CommentDelete? then Some(c.commentId)
    else if c.ContactUpdate? || c.ContactDelete? then Some(c.contactId)
    else None
  }

  /** Must `next` wait for `waiting`, a change still queued, to reach the server first? */
  predicate MustFollow(next: Change, waiting: Change) {
    && SubjectOf(next).Some?
    && SubjectOf(waiting) == SubjectOf(next)
    && (if next.TaskDelete? then true
        else if next.ContactAdd? then waiting.ContactDelete?
        else
          && LaneOf(next) != NoLane
          && LaneOf(waiting) == LaneOf(next)
          && (LaneOf(next) == CommentLane || LaneOf(next) == ContactLane ==> OneOf(waiting) == OneOf(next)))
  }

  /** Only ordered kinds ever wait. */
  lemma OnlyOrderedWait(next: Change, waiting: Change)
    requires MustFollow(next, waiting)
    ensures IsOrdered(next)
  {
  }

  /** The tag keys a change of tags adds or takes off; none known: all of them. */
  function TagsTouched(c: Change): Option<set<string>>
    requires c.TaskTags?
  {
    if c.base.None? then None else Some(Tags.Touched(c.base.value, c.tags))
  }

  function PeopleOf(c: Change): seq<string>
    requires c.TaskAssign? || c.TaskUnassign?
  {
    if c.TaskAssign? then c.userIds else [c.userId]
  }

  /** The people of a list who are not among the touched ones. */
  function PeopleLeft(people: seq<string>, touched: set<string>): seq<string> {
    Filter(people, u => u !in touched)
  }

  function Superseded(item: Item): Item {
    item.(superseded := true)
  }

  /**
    * `done`, a change of user `user`, has reached the server after `older` failed to: what is left of
    * `older` to try again.
    */
  function Supersede(user: string, done: Change, older: Item): Item {
    if older.status != Failed || older.superseded || older.userId != user then older
    else if done.TaskDelete? || !MustFollow(done, older.change) then older
    else match LaneOf(done)
      case ChatLane => older
      case VersionLane => if done.TaskMove? && older.change.TaskMove? then Superseded(older) else older
      case TagsLane => SupersedeTags(done, older)
      case PeopleLane => SupersedePeople(done, older)
      case ContactLane => SupersedeContact(done, older)
      case _ => Superseded(older)
  }

  function SupersedeTags(done: Change, older: Item): Item
    requires done.TaskTags? && older.change.TaskTags?
  {
    var c := older.change;
    if TagsTouched(done).None? || c.base.None? then Superseded(older)
    else
      var touched := TagsTouched(done).value;
      var base, tags := Tags.Left(c.base.value, touched), Tags.Left(c.tags, touched);
      if |base| == |c.base.value| && |tags| == |c.tags| then older
      else
        var rest := c.(base := Some(base), tags := tags);
        if TagsTouched(rest).value != {} then older.(change := rest) else Superseded(older)
  }

  function SupersedePeople(done: Change, older: Item): Item
    requires LaneOf(done) == PeopleLane == LaneOf(older.change)
  {
    var touched := set u | u in PeopleOf(done);
    if older.change.TaskUnassign? then (if older.change.userId in touched then Superseded(older) else older)
    else
      var userIds := PeopleLeft(older.change.userIds, touched);
      if |userIds| == |older.change.userIds| then older
      else if userIds != [] then older.(change := older.change.(userIds := userIds))
      else Superseded(older)
  }

  function SupersedeContact(done: Change, older: Item): Item
    requires LaneOf(done) == ContactLane == LaneOf(older.change)
  {
    if done.ContactDelete? then Superseded(older)
    else if !older.change.ContactUpdate? then older
    else
      var newer := if done.ContactUpdate? then done.patch else map[];
      var patch := older.change.patch;
      var left := map field | field in patch && field !in newer :: patch[field];
      if |left| == |patch| then older
      else if |left| > 0 then older.(change := older.change.(patch := left))
      else Superseded(older)
  }

  /**
    * After a replayed edit or move made version `made` of its task, a queued edit of that task made
    * against the version before now expects `made`.
    */
  function RebaseQueuedVersion(done: Change, made: Option<int>, waiting: Item): Item {
    if !IsVersioned(done) || !waiting.change.TaskUpdate? || made.None? then waiting
    else if TaskIdOf(done) != Some(waiting.change.id) || waiting.change.expectedVersion != Some(made.value - 1) then waiting
    else waiting.(change := waiting.change.(expectedVersion := made))
  }

  // ---- What a change touches ------------------------------------------------------------------

  /** One thing on the server a change can put in its own state, whatever it was before. */
  datatype Cell =
    | TagCell(task: string, key: string)
    | PersonCell(task: string, user: string)
    | WatchCell(task: string)
    | CommentCell(comment: string)
    | ContactCell(contact: string, field: string)
    | ColumnCell(task: string)
    | AnswerCell(meeting: string, attendee: string)

  /** Whether sending `c` can change `cell`. (The fields of an edit are guarded by its version instead.) */
  predicate Touches(c: Change, cell: Cell) {
    match cell
    case TagCell(task, key) =>
      c.TaskTags? && c.id == task && (TagsTouched(c).None? || key in TagsTouched(c).value)
    case PersonCell(task, user) =>
      (c.TaskAssign? && c.id == task && user in c.userIds) || (c.TaskUnassign? && c.id == task && user == c.userId)
    case WatchCell(task) => (c.TaskWatch? || c.TaskUnwatch?) && c.id == task
    case CommentCell(comment) => (c.CommentUpdate? || c.CommentDelete?) && c.commentId == comment
    case ContactCell(contact, field) =>
      (c.ContactUpdate? && c.contactId == contact && field in c.patch) || (c.ContactDelete? && c.contactId == contact)
    case ColumnCell(task) => c.TaskMove? && c.id == task
    case AnswerCell(meeting, attendee) => c.MeetingRespond? && c.meetingId == meeting && c.attendeeId == attendee
  }

  ghost predicate Apart(a: Change, b: Change) {
    forall cell :: !(Touches(a, cell) && Touches(b, cell))
  }

  /** The one kept exception: a contact's removal that failed isn't replaced by a later change of that contact. */
  predicate KeptRemoval(done: Change, older: Change) {
    older.ContactDelete? && !done.ContactDelete?
  }

  lemma PatchLeft(patch: Fields, newer: Fields)
    ensures var left := map field | field in patch && field !in newer :: patch[field];
      && (|left| == |patch| <==> patch.Keys !! newer.Keys)
      && (|left| == 0 <==> patch.Keys <= newer.Keys)
  {
    var left := map field | field in patch && field !in newer :: patch[field];
    assert left.Keys == patch.Keys - newer.Keys;
    assert |left| == |left.Keys| && |patch| == |patch.Keys|;
    KeysLeft(patch.Keys, newer.Keys);
  }

  lemma KeysLeft(keys: set<string>, newer: set<string>)
    ensures |keys - newer| == |keys| <==> keys !! newer
    ensures |keys - newer| == 0 <==> keys <= newer
  {
    if keys !! newer {
      assert keys - newer == keys;
    } else {
      ProperSubsetSize(keys - newer, keys);
    }
    if keys <= newer { assert keys - newer == {}; }
    if keys - newer == {} {
      forall k | k in keys ensures k in newer { assert k !in keys - newer; }
    }
  }

  lemma {:induction false} ProperSubsetSize<T>(a: set<T>, b: set<T>)
    requires a < b
    ensures |a| < |b|
  {
    var x :| x in b && x !in a;
    SubsetSize(a, b - {x});
  }

  lemma {:induction false} SubsetSize<T>(a: set<T>, b: set<T>)
    requires a <= b
    ensures |a| <= |b|
  {
    if a != {} {
      var x :| x in a;
      SubsetSize(a - {x}, b - {x});
    }
  }

  /** Changes of the same kind and thing: whatever waits for one waits for the other. */
  predicate KinChange(a: Change, b: Change) {
    && LaneOf(a) == LaneOf(b)
    && SubjectOf(a) == SubjectOf(b)
    && OneOf(a) == OneOf(b)
    && IsPost(a) == IsPost(b)
    && a.TaskMove? == b.TaskMove?
    && a.TaskUpdate? == b.TaskUpdate?
    && a.TaskDelete? == b.TaskDelete?
    && a.ContactAdd? == b.ContactAdd?
    && a.ContactDelete? == b.ContactDelete?
    && a.ChatSend? == b.ChatSend?
    && (a.ChatSend? ==> a == b)
  }

  lemma KinFollowed(a: Change, b: Change, other: Change)
    requires KinChange(a, b) && MustFollow(other, a)
    ensures MustFollow(other, b)
  {
  }

  /** What stays the same of an item that is superseded, trimmed or rebased. */
  ghost predicate SameChange(a: Item, b: Item) {
    && a == b.(change := a.change, superseded := a.superseded)
    && (b.superseded ==> a.superseded)
    && KinChange(a.change, b.change)
    && (forall cell :: Touches(a.change, cell) ==> Touches(b.change, cell))
  }

  /** What superseding leaves: exactly what the later change didn't touch, or nothing to try again. */
  ghost predicate Trimmed(r: Item, done: Change, older: Item) {
    && r == older.(change := r.change, superseded := r.superseded)
    && (r.superseded ==> r.change == older.change)
    && (!r.superseded ==> forall cell :: Touches(r.change, cell) <==> Touches(older.change, cell) && !Touches(done, cell))
    && (r.superseded ==> WholeList(older.change) || forall cell :: Touches(older.change, cell) ==> Touches(done, cell))
  }

  /** A change of tags queued before changes knew the list they started from. */
  predicate WholeList(c: Change) {
    c.TaskTags? && c.base.None?
  }

  lemma TrimTags(done: Change, older: Item)
    requires done.TaskTags? && older.change.TaskTags? && done.id == older.change.id && !older.superseded
    ensures Trimmed(SupersedeTags(done, older), done, older)
    ensures SupersedeTags(done, older).change.TaskTags? && SupersedeTags(done, older).change.id == older.change.id
  {
    var c := older.change;
    if TagsTouched(done).Some? && c.base.Some? {
      var touched := TagsTouched(done).value;
      Tags.LeftTouched(c.base.value, c.tags, touched);
      var base, tags := Tags.Left(c.base.value, touched), Tags.Left(c.tags, touched);
      var rest := c.(base := Some(base), tags := tags);
      assert TagsTouched(rest).value == TagsTouched(c).value - touched;
      if |base| == |c.base.value| && |tags| == |c.tags| {
        assert rest == c;
      }
      TagCells(done);
      TagCells(c);
      TagCells(rest);
    }
  }

  lemma TagCells(c: Change)
    requires c.TaskTags? && c.base.Some?
    ensures forall cell :: Touches(c, cell) <==> cell.TagCell? && cell.task == c.id && cell.key in TagsTouched(c).value
  {
  }

  lemma PersonCells(c: Change)
    requires LaneOf(c) == PeopleLane
    ensures forall cell :: Touches(c, cell) <==> cell.PersonCell? && cell.task == c.id && cell.user in PeopleOf(c)
  {
  }

  lemma TrimAssign(done: Change, older: Item)
    requires LaneOf(done) == PeopleLane && older.change.TaskAssign? && done.id == older.change.id && !older.superseded
    ensures Trimmed(SupersedePeople(done, older), done, older)
    ensures SupersedePeople(done, older).change == older.change.(userIds := SupersedePeople(done, older).change.userIds)
  {
    var touched := set u | u in PeopleOf(done);
    LeftMembers(older.change.userIds, touched);
    PersonCells(done);
    PersonCells(older.change);
    PersonCells(older.change.(userIds := PeopleLeft(older.change.userIds, touched)));
  }

  lemma LeftMembers(people: seq<string>, touched: set<string>)
    ensures forall u :: u in PeopleLeft(people, touched) <==> u in people && u !in touched
    ensures |PeopleLeft(people, touched)| == |people| ==> PeopleLeft(people, touched) == people
  {
    FilterMembers(people, u => u !in touched);
    assert PeopleLeft(people, touched) == Filter(people, u => u !in touched);
  }

  lemma TrimUnassign(done: Change, older: Item)
    requires LaneOf(done) == PeopleLane && older.change.TaskUnassign? && done.id == older.change.id && !older.superseded
    ensures Trimmed(SupersedePeople(done, older), done, older)
    ensures SupersedePeople(done, older).change == older.change
  {
    PersonCells(done);
    PersonCells(older.change);
  }

  lemma TrimPeople(done: Change, older: Item)
    requires LaneOf(done) == PeopleLane == LaneOf(older.change) && done.id == older.change.id && !older.superseded
    ensures Trimmed(SupersedePeople(done, older), done, older)
    ensures SupersedePeople(done, older).change.TaskAssign? == older.change.TaskAssign?
    ensures LaneOf(SupersedePeople(done, older).change) == PeopleLane && SupersedePeople(done, older).change.id == older.change.id
  {
    if older.change.TaskAssign? { TrimAssign(done, older); } else { TrimUnassign(done, older); }
  }

  lemma TrimContact(done: Change, older: Item)
    requires LaneOf(done) == ContactLane == LaneOf(older.change) && !older.superseded
    requires MustFollow(done, older.change) && !KeptRemoval(done, older.change)
    ensures Trimmed(SupersedeContact(done, older), done, older)
    ensures var c := SupersedeContact(done, older).change;
      LaneOf(c) == ContactLane && OneOf(c) == OneOf(older.change) && c.id == older.change.id
      && c.ContactAdd? == older.change.ContactAdd? && c.ContactDelete? == older.change.ContactDelete?
  {
    if done.ContactUpdate? && older.change.ContactUpdate? {
      PatchLeft(older.change.patch, done.patch);
    }
  }

  /**
    * The law of superseding: the rest of an older failed change touches nothing the done one touched,
    * and everything else it touched before; it is blocked only when the done change touched all of it
    * (or it knew no list to start from).
    */
  lemma SupersedeTrims(user: string, done: Change, older: Item)
    requires older.status == Failed && !older.superseded && older.userId == user
    requires !done.TaskDelete? && MustFollow(done, older.change) && !KeptRemoval(done, older.change)
    ensures var r := Supersede(user, done, older);
      Trimmed(r, done, older) && (r.superseded || Apart(done, r.change))
  {
    match LaneOf(done)
    case TagsLane => TrimTags(done, older);
    case PeopleLane => TrimPeople(done, older);
    case ContactLane => TrimContact(done, older);
    case _ =>
  }

  /** What is left of a change, if of the same kind and thing, is the same change. */
  lemma TrimmedIsSame(r: Item, done: Change, older: Item)
    requires Trimmed(r, done, older) && KinChange(r.change, older.change) && !older.superseded
    ensures SameChange(r, older)
  {
  }

  lemma TagsShape(done: Change, older: Item)
    requires done.TaskTags? && older.change.TaskTags? && done.id == older.change.id && !older.superseded
    ensures SameChange(SupersedeTags(done, older), older)
  {
    TrimTags(done, older);
    TrimmedIsSame(SupersedeTags(done, older), done, older);
  }

  lemma PeopleShape(done: Change, older: Item)
    requires LaneOf(done) == PeopleLane == LaneOf(older.change) && done.id == older.change.id && !older.superseded
    ensures SameChange(SupersedePeople(done, older), older)
  {
    TrimPeople(done, older);
    TrimmedIsSame(SupersedePeople(done, older), done, older);
  }

  lemma ContactShape(done: Change, older: Item)
    requires LaneOf(done) == ContactLane == LaneOf(older.change) && !older.superseded && MustFollow(done, older.change)
    ensures SameChange(SupersedeContact(done, older), older)
  {
    if !KeptRemoval(done, older.change) {
      TrimContact(done, older);
    }
  }

  lemma SupersededShape(older: Item)
    ensures SameChange(Superseded(older), older)
  {
  }

  lemma SameItem(item: Item)
    ensures SameChange(item, item)
  {
  }

  /** Superseding reaches only a failed older change of the same thing, and never an edit. */
  predicate Supersedes(user: string, done: Change, older: Item) {
    older.status == Failed && !older.superseded && older.userId == user && !done.TaskDelete? && MustFollow(done, older.change)
  }

  lemma NotSuperseded(user: string, done: Change, older: Item)
    requires !Supersedes(user, done, older) || older.change.TaskUpdate?
    ensures Supersede(user, done, older) == older
  {
  }

  lemma WhatSupersedes(user: string, done: Change, older: Item)
    requires Supersedes(user, done, older)
    ensures match LaneOf(done)
      case TagsLane => Supersede(user, done, older) == SupersedeTags(done, older)
      case PeopleLane => Supersede(user, done, older) == SupersedePeople(done, older)
      case ContactLane => Supersede(user, done, older) == SupersedeContact(done, older)
      case _ => Supersede(user, done, older) in {older, Superseded(older)}
  {
  }

  lemma SupersedeShape(user: string, done: Change, older: Item)
    ensures SameChange(Supersede(user, done, older), older)
    ensures older.change.TaskUpdate? ==> Supersede(user, done, older) == older
  {
    SameItem(older);
    if !Supersedes(user, done, older) || older.change.TaskUpdate? {
      NotSuperseded(user, done, older);
    } else {
      WhatSupersedes(user, done, older);
      SupersededShape(older);
      match LaneOf(done)
      case TagsLane => TagsShape(done, older);
      case PeopleLane => PeopleShape(done, older);
      case ContactLane => ContactShape(done, older);
      case _ =>
    }
  }

  /** An edit rebased is the same change; only the version it expects moves, by exactly one. */
  lemma RebaseShape(done: Change, made: Option<int>, waiting: Item)
    ensures var r := RebaseQueuedVersion(done, made, waiting);
      && SameChange(r, waiting)
      && r.change == (if waiting.change.TaskUpdate? then waiting.change.(expectedVersion := r.change.expectedVersion) else waiting.change)
      && (r != waiting ==> waiting.change.expectedVersion.Some? && r.change.expectedVersion == Some(waiting.change.expectedVersion.value + 1) == made)
  {
  }
}
