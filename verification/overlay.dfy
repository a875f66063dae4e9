/**
  * Changes waiting to sync, shown over what a read returns (Extension/src/pending-overlay.js). `at` gives the
  * time an item was queued.
  */
module Overlays {
  import opened Lists
  import opened Edits
  import opened Changes
  import Tags

  datatype TagRecord = TagRecord(id: string, name: string, color: Option<string>)
  datatype Contact = Contact(id: string, fields: Fields)

  /** A task as a read returns it; a list row has no contacts. */
  datatype Row = Row(id: string, parent: string, fields: Fields, tags: Option<seq<TagRecord>>, contacts: Option<seq<Contact>>, pendingDelete: bool)

  datatype Board = Board(projectId: Json, boardDate: Json)

  type Times = string -> string

  function TempId(item: Item): string {
    "tmp-" + item.id
  }

  predicate Truthy(v: Json) {
    !Blank(v) && v != Bool(false) && v != Num(0.0)
  }

  function Or(v: Json, other: Json): Json {
    if Truthy(v) then v else other
  }

  // ---- One change over one task -------------------------------------------------------------------

  /** The fields of an edit shown on a task. */
  function Shown(patch: Fields): Fields {
    patch - {"expectedVersion", "scope"}
  }

  function Names(tags: seq<TagRecord>): (names: seq<string>)
    ensures |names| == |tags| && forall i :: 0 <= i < |tags| ==> names[i] == tags[i].name
  {
    seq(|tags|, i requires 0 <= i < |tags| => tags[i].name)
  }

  /** The known tag of this name, in any case; a new one has no colour yet. */
  function RecordFor(pool: seq<TagRecord>, name: string): (r: TagRecord)
    ensures Tags.Lower(r.name) == Tags.Lower(name)
    decreases |pool|
  {
    if pool == [] then TagRecord("tmp-tag:" + Tags.Lower(name), name, None)
    else if Tags.Lower(pool[0].name) == Tags.Lower(name) then pool[0]
    else RecordFor(pool[1..], name)
  }

  function TagRecords(names: seq<string>, pool: seq<TagRecord>): (r: seq<TagRecord>)
    ensures |r| == |names| && forall i :: 0 <= i < |names| ==> r[i] == RecordFor(pool, names[i])
  {
    seq(|names|, i requires 0 <= i < |names| => RecordFor(pool, names[i]))
  }

  /** The names a change of tags sends, over the names as they are now. */
  function NamesSent(now: seq<string>, base: Option<seq<string>>, next: seq<string>): seq<string> {
    if base.Some? then Tags.Merged(now, base.value, next) else next
  }

  function ChangedTags(tags: Option<seq<TagRecord>>, base: Option<seq<string>>, next: seq<string>): Option<seq<TagRecord>> {
    var pool := if tags.Some? then tags.value else [];
    Some(TagRecords(NamesSent(Names(pool), base, next), pool))
  }

  function NewContact(item: Item, taskId: string, contact: Fields, position: nat): Contact {
    Contact(TempId(item), contact["taskId" := Str(taskId)]["position" := Num(position as real)]["pending" := Bool(true)])
  }

  predicate HasContact(rows: seq<Contact>, id: string) {
    exists i :: 0 <= i < |rows| && rows[i].id == id
  }

  function ChangedContacts(rows: seq<Contact>, item: Item): Option<seq<Contact>> {
    match item.change
    case ContactAdd(id, contact) => Some(rows + [NewContact(item, id, contact, |rows|)])
    case ContactUpdate(_, contactId, patch) =>
      if !HasContact(rows, contactId) then None
      else Some(Mapped(rows, (c: Contact) => if c.id == contactId then c.(fields := c.fields + patch) else c))
    case ContactDelete(_, contactId) =>
      if !HasContact(rows, contactId) then None else Some(Filter(rows, (c: Contact) => c.id != contactId))
    case _ => None
  }

  /** A task after a queued move, as the board shows it: into Done completes it, out of it reopens it. */
  function Moved(fields: Fields, columnId: string, category: string, moment: string): Fields {
    var placed := fields["columnId" := Str(columnId)]["columnHidden" := Bool(false)];
    if category == "" then placed
    else
      var there := placed["columnCategory" := Str(category)];
      if category == "DONE" then there["completedAt" := Or(At(fields, "completedAt"), Str(moment))]["progress" := Num(100.0)]
      else there["completedAt" := Null]
  }

  /** A task after a queued change; None when the change doesn't touch it. */
  function ChangedTask(row: Row, item: Item, at: Times): Option<Row> {
    if !IsOfTask(item.change) || item.change.id != row.id then None
    else match item.change
      case TaskUpdate(_, patch, _) => Some(row.(fields := row.fields + Shown(patch)))
      case TaskTags(_, base, next) => Some(row.(tags := ChangedTags(row.tags, base, next)))
      case TaskMove(_, columnId, category) => Some(row.(fields := Moved(row.fields, columnId, category, at(item.id))))
      case _ => WithContacts(row, if row.contacts.Some? then ChangedContacts(row.contacts.value, item) else None)
  }

  function WithContacts(row: Row, contacts: Option<seq<Contact>>): Option<Row> {
    if contacts.Some? then Some(row.(contacts := contacts)) else None
  }

  // ---- Lists of tasks -----------------------------------------------------------------------------

  /** A delete takes a row off a list: its own, and every copy's when the whole series goes. */
  predicate TakesOff(c: Change, row: Row) {
    c.TaskDelete? && (row.id == c.id || (c.series && c.seriesId != "" && (row.id == c.seriesId || row.parent == c.seriesId)))
  }

  /** A row after one change: gone, changed or as it was. */
  function RowAfter(row: Row, item: Item, at: Times): Option<Row> {
    if TakesOff(item.change, row) then None
    else
      var c := ChangedTask(row, item, at);
      if c.Some? then c else Some(row)
  }

  function RowsAfter(rows: seq<Row>, item: Item, at: Times): seq<Row> {
    if rows == [] then []
    else
      var rest := RowsAfter(rows[..|rows| - 1], item, at);
      var last := RowAfter(rows[|rows| - 1], item, at);
      if last.Some? then rest + [last.value] else rest
  }

  predicate OnBoard(board: Option<Board>, c: Change) {
    c.TaskCreate? && board.Some? && At(c.draft, "projectId") == board.value.projectId
    && Or(At(c.draft, "boardDate"), Null) == Or(board.value.boardDate, Null)
  }

  /** A task created offline, as a board shows it. */
  function CreatedRow(item: Item): Row
    requires item.change.TaskCreate?
  {
    var p := item.change.draft;
    Row(TempId(item), "", map["key" := Str(""), "title" := Or(At(p, "title"), Str("")), "description" := Or(At(p, "description"), Null),
      "priority" := Or(At(p, "priority"), Str("NORMAL")), "projectId" := At(p, "projectId"), "columnId" := At(p, "columnId"),
      "columnCategory" := Null, "dueDate" := Or(At(p, "dueDate"), Null), "progress" := Num(0.0), "completedAt" := Null,
      "recurrenceRule" := Or(At(p, "recurrenceRule"), Null), "pending" := Bool(true)], None, None, false)
  }

  function NewRows(board: Option<Board>, item: Item): seq<Row> {
    if OnBoard(board, item.change) then [CreatedRow(item)] else []
  }

  predicate TouchesList(board: Option<Board>, rows: seq<Row>, item: Item, at: Times) {
    || OnBoard(board, item.change)
    || exists i :: 0 <= i < |rows| && (TakesOff(item.change, rows[i]) || ChangedTask(rows[i], item, at).Some?)
  }

  function OverList(board: Option<Board>, rows: seq<Row>, items: seq<Item>, at: Times): seq<Row> {
    if items == [] then rows
    else RowsAfter(OverList(board, rows, items[..|items| - 1], at), items[|items| - 1], at) + NewRows(board, items[|items| - 1])
  }

  function ListTouches(board: Option<Board>, rows: seq<Row>, items: seq<Item>, at: Times): nat {
    if items == [] then 0
    else
      var init, last := items[..|items| - 1], items[|items| - 1];
      ListTouches(board, rows, init, at) + (if TouchesList(board, OverList(board, rows, init, at), last, at) then 1 else 0)
  }

  // ---- One task -----------------------------------------------------------------------------------

  /** The open task after one change; a deleted one says so. */
  function OneAfter(row: Row, taskId: string, item: Item, at: Times): Option<Row> {
    if !IsOfTask(item.change) || item.change.id != taskId then None
    else if item.change.TaskDelete? then Some(row.(pendingDelete := true))
    else ChangedTask(row, item, at)
  }

  function OverOne(taskId: string, row: Row, items: seq<Item>, at: Times): Row {
    if items == [] then row
    else
      var was := OverOne(taskId, row, items[..|items| - 1], at);
      var now := OneAfter(was, taskId, items[|items| - 1], at);
      if now.Some? then now.value else was
  }

  function OneTouches(taskId: string, row: Row, items: seq<Item>, at: Times): nat {
    if items == [] then 0
    else
      var init := items[..|items| - 1];
      OneTouches(taskId, row, init, at) + (if OneAfter(OverOne(taskId, row, init, at), taskId, items[|items| - 1], at).Some? then 1 else 0)
  }

  /** The change or deletion of a list row. */
  function OverRow(row: Row, items: seq<Item>, at: Times): Option<Row> {
    if items == [] then Some(row)
    else
      var was := OverRow(row, items[..|items| - 1], at);
      if was.None? then None else RowAfter(was.value, items[|items| - 1], at)
  }

  function Survivors(rows: seq<Row>, items: seq<Item>, at: Times): seq<Row> {
    if rows == [] then []
    else
      var rest, last := Survivors(rows[..|rows| - 1], items, at), OverRow(rows[|rows| - 1], items, at);
      if last.Some? then rest + [last.value] else rest
  }

  /** The rows of tasks created offline, each after the changes queued behind it. */
  function CreatedRows(board: Option<Board>, items: seq<Item>, at: Times): seq<Row> {
    if items == [] then []
    else RowsAfter(CreatedRows(board, items[..|items| - 1], at), items[|items| - 1], at) + NewRows(board, items[|items| - 1])
  }

  // ---- The loops ----------------------------------------------------------------------------------

  method OverTaskList(board: Option<Board>, rows: seq<Row>, items: seq<Item>, at: Times) returns (data: seq<Row>, applied: nat)
    ensures data == OverList(board, rows, items, at) && applied == ListTouches(board, rows, items, at)
  {
    data, applied := rows, 0;
    for n := 0 to |items|
      invariant data == OverList(board, rows, items[..n], at) && applied == ListTouches(board, rows, items[..n], at)
    {
      var item := items[n];
      assert items[..n + 1][..n] == items[..n];
      var next, touched := OverRows(data, item, at);
      if OnBoard(board, item.change) {
        next, touched := next + [CreatedRow(item)], true;
      }
      data := next;
      if touched { applied := applied + 1; }
    }
    assert items[..|items|] == items;
  }

  method OverRows(rows: seq<Row>, item: Item, at: Times) returns (next: seq<Row>, touched: bool)
    ensures next == RowsAfter(rows, item, at)
    ensures touched <==> exists i :: 0 <= i < |rows| && (TakesOff(item.change, rows[i]) || ChangedTask(rows[i], item, at).Some?)
  {
    next, touched := [], false;
    for i := 0 to |rows|
      invariant next == RowsAfter(rows[..i], item, at)
      invariant touched <==> exists j :: 0 <= j < i && (TakesOff(item.change, rows[j]) || ChangedTask(rows[j], item, at).Some?)
    {
      assert rows[..i + 1][..i] == rows[..i];
      if TakesOff(item.change, rows[i]) {
        touched := true;
      } else {
        var c := ChangedTask(rows[i], item, at);
        touched := touched || c.Some?;
        next := next + [if c.Some? then c.value else rows[i]];
      }
    }
    assert rows[..|rows|] == rows;
  }

  method OverTask(taskId: string, task: Row, items: seq<Item>, at: Times) returns (data: Row, applied: nat)
    ensures data == OverOne(taskId, task, items, at) && applied == OneTouches(taskId, task, items, at)
  {
    data, applied := task, 0;
    for n := 0 to |items|
      invariant data == OverOne(taskId, task, items[..n], at) && applied == OneTouches(taskId, task, items[..n], at)
    {
      assert items[..n + 1][..n] == items[..n];
      var c := OneAfter(data, taskId, items[n], at);
      if c.Some? {
        data, applied := c.value, applied + 1;
      }
    }
    assert items[..|items|] == items;
  }

  // ---- Lists and open tasks agree -----------------------------------------------------------------

  lemma {:induction false} RowsAfterConcat(a: seq<Row>, b: seq<Row>, item: Item, at: Times)
    ensures RowsAfter(a + b, item, at) == RowsAfter(a, item, at) + RowsAfter(b, item, at)
  {
    if b == [] {
      assert a + b == a;
    } else {
      RowsAfterConcat(a, b[..|b| - 1], item, at);
      assert (a + b)[..|a + b| - 1] == a + b[..|b| - 1];
    }
  }

  lemma {:induction false} SurvivorsStep(rows: seq<Row>, items: seq<Item>, at: Times)
    requires items != []
    ensures Survivors(rows, items, at) == RowsAfter(Survivors(rows, items[..|items| - 1], at), items[|items| - 1], at)
  {
    if rows != [] {
      var init, last := rows[..|rows| - 1], rows[|rows| - 1];
      SurvivorsStep(init, items, at);
      var before := Survivors(init, items[..|items| - 1], at);
      var was := OverRow(last, items[..|items| - 1], at);
      if was.Some? {
        assert (before + [was.value])[..|before|] == before;
      }
    }
  }

  lemma {:induction false} SurvivorsAll(rows: seq<Row>, at: Times)
    ensures Survivors(rows, [], at) == rows
  {
    if rows != [] {
      SurvivorsAll(rows[..|rows| - 1], at);
    }
  }

  /** A list shows each of its rows by itself, in order, then the tasks created offline. */
  lemma {:induction false} ListIsRows(board: Option<Board>, rows: seq<Row>, items: seq<Item>, at: Times)
    ensures OverList(board, rows, items, at) == Survivors(rows, items, at) + CreatedRows(board, items, at)
  {
    if items == [] {
      SurvivorsAll(rows, at);
    } else {
      var init, last := items[..|items| - 1], items[|items| - 1];
      ListIsRows(board, rows, init, at);
      SurvivorsStep(rows, items, at);
      RowsAfterConcat(Survivors(rows, init, at), CreatedRows(board, init, at), last, at);
    }
  }

  lemma RowStep(was: Row, item: Item, at: Times)
    ensures var one := OneAfter(was, was.id, item, at);
      var now := if one.Some? then one.value else was;
      && now.id == was.id && now.parent == was.parent
      && (now.pendingDelete <==> was.pendingDelete || (item.change.TaskDelete? && item.change.id == was.id))
      && RowAfter(was, item, at) == if TakesOff(item.change, was) then None else Some(now)
  {
  }

  /** A row a list still shows is the open task; it is gone exactly when one of the queued deletes takes it off. */
  lemma {:induction false} RowIsTask(row: Row, items: seq<Item>, at: Times)
    ensures OverRow(row, items, at).Some? ==> OverRow(row, items, at) == Some(OverOne(row.id, row, items, at))
    ensures OverRow(row, items, at).None? <==> exists n :: 0 <= n < |items| && TakesOff(items[n].change, row)
    ensures OverOne(row.id, row, items, at).id == row.id && OverOne(row.id, row, items, at).parent == row.parent
    ensures OverOne(row.id, row, items, at).pendingDelete <==>
      row.pendingDelete || exists n :: 0 <= n < |items| && items[n].change.TaskDelete? && items[n].change.id == row.id
  {
    if items != [] {
      var init, last := items[..|items| - 1], items[|items| - 1];
      RowIsTask(row, init, at);
      RowStep(OverOne(row.id, row, init, at), last, at);
      assert forall n :: 0 <= n < |init| ==> items[n] == init[n];
    }
  }

  /** With no delete of a whole series, a list lacks a row exactly when the open task says it is deleted. */
  lemma GoneIsDeleted(row: Row, items: seq<Item>, at: Times)
    requires !row.pendingDelete && forall n :: 0 <= n < |items| ==> !(items[n].change.TaskDelete? && items[n].change.series)
    ensures OverRow(row, items, at).None? <==> OverOne(row.id, row, items, at).pendingDelete
  {
    RowIsTask(row, items, at);
  }

  /** The last queued edit or move of the task that sets a field, or the field as it was read. */
  function LastSet(row: Row, items: seq<Item>, field: string): Json {
    if items == [] then At(row.fields, field)
    else
      var c := items[|items| - 1].change;
      if c.TaskUpdate? && c.id == row.id && field in Shown(c.patch) then c.patch[field]
      else if c.TaskMove? && c.id == row.id && field == "columnId" then Str(c.columnId)
      else LastSet(row, items[..|items| - 1], field)
  }

  /** The last change of a field wins, the few a move derives aside. */
  lemma {:induction false} LastWins(row: Row, items: seq<Item>, at: Times, field: string)
    requires field !in {"columnHidden", "columnCategory", "completedAt", "progress"}
    ensures At(OverOne(row.id, row, items, at).fields, field) == LastSet(row, items, field)
  {
    if items != [] {
      var init := items[..|items| - 1];
      LastWins(row, init, at, field);
      RowIsTask(row, init, at);
      FieldAfter(OverOne(row.id, row, init, at), items[|items| - 1], at, field);
    }
  }

  lemma FieldAfter(was: Row, item: Item, at: Times, field: string)
    requires field !in {"columnHidden", "columnCategory", "completedAt", "progress"}
    ensures var c, one := item.change, OneAfter(was, was.id, item, at);
      var now := if one.Some? then one.value else was;
      At(now.fields, field) ==
        if c.TaskUpdate? && c.id == was.id && field in Shown(c.patch) then c.patch[field]
        else if c.TaskMove? && c.id == was.id && field == "columnId" then Str(c.columnId)
        else At(was.fields, field)
  {
  }

  /** A task as a move leaves it: into Done it is complete, at the time it was first completed; out of it, open again. */
  predicate ShowsMove(was: Fields, now: Fields, columnId: string, category: string) {
    && At(now, "columnId") == Str(columnId) && At(now, "columnHidden") == Bool(false)
    && (category == "DONE" ==> Truthy(At(now, "completedAt")) && At(now, "progress") == Num(100.0))
    && (category == "DONE" && Truthy(At(was, "completedAt")) ==> At(now, "completedAt") == At(was, "completedAt"))
    && (category != "" && category != "DONE" ==> At(now, "completedAt") == Null && At(now, "progress") == At(was, "progress"))
    && (category == "" ==> At(now, "completedAt") == At(was, "completedAt") && At(now, "columnCategory") == At(was, "columnCategory"))
  }

  lemma MovedShows(was: Fields, columnId: string, category: string, moment: string)
    requires moment != ""
    ensures ShowsMove(was, Moved(was, columnId, category, moment), columnId, category)
  {
  }

  /** After a queue whose last change of the task is a move. */
  lemma MovedLast(row: Row, items: seq<Item>, last: Item, at: Times)
    requires last.change.TaskMove? && last.change.id == row.id && at(last.id) != ""
    ensures ShowsMove(OverOne(row.id, row, items, at).fields, OverOne(row.id, row, items + [last], at).fields,
      last.change.columnId, last.change.columnCategory)
  {
    var was := OverOne(row.id, row, items, at);
    RowIsTask(row, items, at);
    assert (items + [last])[..|items|] == items;
    MovedShows(was.fields, last.change.columnId, last.change.columnCategory, at(last.id));
    assert OverOne(row.id, row, items + [last], at) == OneAfter(was, row.id, last, at).value;
  }

  // ---- Watching -----------------------------------------------------------------------------------

  predicate IsWatchChange(c: Change, taskId: string) {
    (c.TaskWatch? || c.TaskUnwatch?) && c.id == taskId
  }

  /** The last watch or unwatch waiting wins. */
  function OverWatch(taskId: string, watching: bool, items: seq<Item>): bool {
    if items == [] then watching
    else if IsWatchChange(items[|items| - 1].change, taskId) then items[|items| - 1].change.TaskWatch?
    else OverWatch(taskId, watching, items[..|items| - 1])
  }

  function WatchersAfter(people: seq<string>, taskId: string, item: Item): seq<string> {
    if !IsWatchChange(item.change, taskId) then people
    else Filter(people, (u: string) => u != item.userId) + (if item.change.TaskWatch? then [item.userId] else [])
  }

  method OverWatchers(taskId: string, list: seq<string>, items: seq<Item>) returns (people: seq<string>)
    ensures people == Watchers(taskId, list, items)
  {
    people := list;
    for n := 0 to |items|
      invariant people == Watchers(taskId, list, items[..n])
    {
      assert items[..n + 1][..n] == items[..n];
      people := WatchersAfter(people, taskId, items[n]);
    }
    assert items[..|items|] == items;
  }

  function Watchers(taskId: string, list: seq<string>, items: seq<Item>): seq<string> {
    if items == [] then list else WatchersAfter(Watchers(taskId, list, items[..|items| - 1]), taskId, items[|items| - 1])
  }

  /** The task says watching exactly when its watchers list the person; nobody else comes or goes. */
  lemma {:induction false} WatchingAgrees(taskId: string, list: seq<string>, watching: bool, items: seq<Item>, user: string)
    requires forall n :: 0 <= n < |items| ==> items[n].userId == user
    requires watching <==> user in list
    ensures OverWatch(taskId, watching, items) <==> user in Watchers(taskId, list, items)
    ensures Filter(Watchers(taskId, list, items), NotPerson(user)) == Filter(list, NotPerson(user))
  {
    if items != [] {
      var init, last := items[..|items| - 1], items[|items| - 1];
      WatchingAgrees(taskId, list, watching, init, user);
      if IsWatchChange(last.change, taskId) {
        var was := Watchers(taskId, list, init);
        var p := (u: string) => u != last.userId;
        FilterMembers(was, p);
        FilterTwice(was, p, NotPerson(user));
        FilterConcat(Filter(was, p), if last.change.TaskWatch? then [last.userId] else [], NotPerson(user));
      }
    }
  }

  function NotPerson(user: string): string -> bool {
    (u: string) => u != user
  }

  // ---- Tags ---------------------------------------------------------------------------------------

  /** The same names, in any case. */
  predicate SameNames(a: seq<string>, b: seq<string>) {
    |a| == |b| && forall i :: 0 <= i < |a| ==> Tags.Lower(a[i]) == Tags.Lower(b[i])
  }

  function TagNames(row: Row): seq<string> {
    if row.tags.Some? then Names(row.tags.value) else []
  }

  /** `lists` are the task's tags before and after each replay: the server keeps the names it is sent, in a case of its own. */
  predicate Replayed(taskId: string, items: seq<Item>, lists: seq<seq<string>>) {
    && |lists| == |items| + 1
    && forall n :: 0 <= n < |items| ==>
      var c := items[n].change;
      if c.TaskTags? && c.id == taskId then SameNames(lists[n + 1], NamesSent(lists[n], c.base, c.tags)) else lists[n + 1] == lists[n]
  }

  lemma {:induction false} DropLeadingLower(s: string)
    ensures Tags.DropLeading(Tags.Lower(s)) == Tags.Lower(Tags.DropLeading(s))
  {
    if s != "" { DropLeadingLower(s[1..]); assert Tags.Lower(s)[1..] == Tags.Lower(s[1..]); }
  }

  lemma {:induction false} DropTrailingLower(s: string)
    ensures Tags.DropTrailing(Tags.Lower(s)) == Tags.Lower(Tags.DropTrailing(s))
  {
    if s != "" { DropTrailingLower(s[..|s| - 1]); assert Tags.Lower(s)[..|s| - 1] == Tags.Lower(s[..|s| - 1]); }
  }

  lemma {:induction false} CollapseLower(s: string)
    ensures Tags.Collapse(Tags.Lower(s)) == Tags.Lower(Tags.Collapse(s))
    decreases |s|
  {
    if s != "" {
      assert Tags.Lower(s)[1..] == Tags.Lower(s[1..]);
      if !Tags.IsSpace(s[0]) {
        CollapseLower(s[1..]);
        assert Tags.Lower([s[0]] + Tags.Collapse(s[1..])) == [Tags.LowerChar(s[0])] + Tags.Lower(Tags.Collapse(s[1..]));
      } else {
        Tags.DropLeadingShortens(s[1..]);
        DropLeadingLower(s[1..]);
        CollapseLower(Tags.DropLeading(s[1..]));
        assert Tags.Lower(" " + Tags.Collapse(Tags.DropLeading(s[1..]))) == " " + Tags.Lower(Tags.Collapse(Tags.DropLeading(s[1..])));
      }
    }
  }

  /** Tidying a name and lowering its case can go in either order. */
  lemma KeyOfLower(name: string)
    ensures Tags.TagKey(name) == Tags.NormalizeTagName(Tags.Lower(name))
  {
    DropLeadingLower(name);
    DropTrailingLower(Tags.DropLeading(name));
    CollapseLower(Tags.DropTrailing(Tags.DropLeading(name)));
  }

  lemma KeepOneSame(a: seq<string>, b: seq<string>, x: string, y: string, before: set<string>, after: set<string>)
    requires SameNames(a, b) && Tags.Lower(x) == Tags.Lower(y)
    ensures SameNames(Tags.KeepOne(a, x, before, after), Tags.KeepOne(b, y, before, after))
  {
    KeyOfLower(x);
    KeyOfLower(y);
    assert Tags.OutKeys(a) == Tags.OutKeys(b);
    assert |Tags.NormalizeTagName(x)| == |Tags.TagKey(x)| == |Tags.NormalizeTagName(y)|;
  }

  lemma {:induction false} KeepAllSame(a: seq<string>, b: seq<string>, xs: seq<string>, ys: seq<string>, before: set<string>, after: set<string>)
    requires SameNames(a, b) && SameNames(xs, ys)
    ensures SameNames(Tags.KeepAll(a, xs, before, after), Tags.KeepAll(b, ys, before, after))
  {
    if xs != [] {
      KeepAllSame(a, b, xs[..|xs| - 1], ys[..|ys| - 1], before, after);
      KeepOneSame(Tags.KeepAll(a, xs[..|xs| - 1], before, after), Tags.KeepAll(b, ys[..|ys| - 1], before, after),
        xs[|xs| - 1], ys[|ys| - 1], before, after);
    }
  }

  /** A change over the same names gives the same names. */
  lemma MergedSame(a: seq<string>, b: seq<string>, base: seq<string>, next: seq<string>)
    requires SameNames(a, b)
    ensures SameNames(Tags.Merged(a, base, next), Tags.Merged(b, base, next))
  {
    var before, after := Tags.KeysOf(base), Tags.KeysOf(next);
    var added := Tags.Additions(next, before);
    KeepAllSame([], [], a, b, before, after);
    KeepAllSame(Tags.KeepAll([], a, before, after), Tags.KeepAll([], b, before, after), added, added, before, after);
  }

  /** Only a change of tags changes the tags shown. */
  lemma OneAfterTags(row: Row, item: Item, at: Times)
    ensures var r := OneAfter(row, row.id, item, at);
      if item.change.TaskTags? && item.change.id == row.id
      then r.Some? && r.value.tags == ChangedTags(row.tags, item.change.base, item.change.tags)
      else r.Some? ==> r.value.tags == row.tags
  {
  }

  /** One queued change over the shown task is one replay over the server's tags. */
  lemma TagsStep(row: Row, item: Item, at: Times, now: seq<string>, next: seq<string>)
    requires SameNames(TagNames(row), now)
    requires var c := item.change;
      if c.TaskTags? && c.id == row.id then SameNames(next, NamesSent(now, c.base, c.tags)) else next == now
    ensures var r := OneAfter(row, row.id, item, at);
      SameNames(if r.Some? then TagNames(r.value) else TagNames(row), next)
  {
    OneAfterTags(row, item, at);
    var c := item.change;
    if c.TaskTags? && c.id == row.id && c.base.Some? { MergedSame(TagNames(row), now, c.base.value, c.tags); }
  }

  /** The tags shown for the queue are those its replay leaves, in the same order, whatever their case. */
  lemma {:induction false} TagsAgree(row: Row, items: seq<Item>, at: Times, lists: seq<seq<string>>)
    requires Replayed(row.id, items, lists) && SameNames(TagNames(row), lists[0])
    ensures SameNames(TagNames(OverOne(row.id, row, items, at)), lists[|items|])
  {
    if items != [] {
      var n := |items| - 1;
      assert Replayed(row.id, items[..n], lists[..n + 1]) by {
        assert forall m :: 0 <= m <= n ==> lists[..n + 1][m] == lists[m];
        assert forall m :: 0 <= m < n ==> items[..n][m] == items[m];
      }
      TagsAgree(row, items[..n], at, lists[..n + 1]);
      RowIsTask(row, items[..n], at);
      TagsStep(OverOne(row.id, row, items[..n], at), items[n], at, lists[n], lists[n + 1]);
    }
  }
}
