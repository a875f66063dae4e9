/** The activity timeline's lines: which entries read as one, and what edits come to (Extension/src/activity-feed.js). */
module Activity {
  import opened Edits
  import opened Changes
  import opened Runs

  datatype FieldChange = FieldChange(field: string, from: Json, to: Json, reason: Option<string>)

  /** The actions the timeline knows; those ending in 2 are the names older rows have for them. */
  datatype Action =
    | CREATED | CREATED2 | MOVED | MOVED2 | COMPLETED | COMPLETED2 | REOPENED | REOPENED2
    | ASSIGNED | ASSIGNED2 | UNASSIGNED | UNASSIGNED2 | UPDATED | UPDATED2
    | CHECKLIST_ADDED | CHECKLIST_DONE | CHECKLIST_REOPENED | CHECKLIST_RENAMED | CHECKLIST_REMOVED | CHECKLIST_REORDERED
    | CHECKLIST_ASSIGNED | CHECKLIST_UNASSIGNED | CHECKLIST_DUE | CHECKLIST_MOVED | CHECKLIST_DUPLICATED | CHECKLIST_RESTORED
    | CHECKLIST_LIST_ADDED | CHECKLIST_LIST_RENAMED | CHECKLIST_LIST_DUPLICATED | CHECKLIST_LIST_REMOVED
    | COMMENTED | ATTACHED | ATTACHMENT_REMOVED | BLOCKER_ADDED | BLOCKER_REMOVED
    | EXTERNAL_CONTACT_ADDED | EXTERNAL_CONTACT_CHANGED | EXTERNAL_CONTACT_REMOVED
    | Another(name: string)

  /** A row of activity; `time` is None when it has none that can be read; texts not there are empty. */
  datatype Entry = Entry(action: Action, actorName: string, time: Option<int>, viaMicoAi: bool, listTitle: string, batchId: string,
    changes: seq<FieldChange>)

  datatype Kind = Created | Moved | Completed | Reopened | Assigned | Unassigned | Updated | Checklist | Comment | File | Blocker | External | Other

  const MERGE_WINDOW_MS := 30 * 60000
  const ADD_WINDOW_MS := 2 * 60000

  function KindOf(action: Action): Kind {
    match action
    case CREATED => Created
    case CREATED2 => Created
    case MOVED => Moved
    case MOVED2 => Moved
    case COMPLETED => Completed
    case COMPLETED2 => Completed
    case REOPENED => Reopened
    case REOPENED2 => Reopened
    case ASSIGNED => Assigned
    case ASSIGNED2 => Assigned
    case UNASSIGNED => Unassigned
    case UNASSIGNED2 => Unassigned
    case UPDATED => Updated
    case UPDATED2 => Updated
    case COMMENTED => Comment
    case ATTACHED => File
    case ATTACHMENT_REMOVED => File
    case BLOCKER_ADDED => Blocker
    case BLOCKER_REMOVED => Blocker
    case EXTERNAL_CONTACT_ADDED => External
    case EXTERNAL_CONTACT_CHANGED => External
    case EXTERNAL_CONTACT_REMOVED => External
    case Another(_) => Other
    case _ => Checklist
  }

  predicate IsMove(k: Kind) {
    k == Moved || k == Completed || k == Reopened
  }

  /**
    * A run's key: the source joins the name of its base and the tail into one text. The tail is empty or
    * starts with '|', which no base's name has in it, so two texts are equal just when both parts are.
    */
  datatype Key = Key(base: Base, tail: string)

  datatype Base = OfMoves | OfAssigning | OfUnassigning | OfEdits | Of(action: Action)

  const BY_AI := "|mico-ai"

  function ChecklistRunKey(e: Entry): Option<Key> {
    if e.action == CHECKLIST_ADDED then Some(Key(Of(e.action), if e.listTitle != "" then "|" + e.listTitle else ""))
    else if e.action == CHECKLIST_REMOVED then (if e.batchId != "" then None else Some(Key(Of(e.action), "")))
    else if e.action in {CHECKLIST_DONE, CHECKLIST_REOPENED, CHECKLIST_RENAMED, CHECKLIST_REORDERED} then Some(Key(Of(e.action), ""))
    else None
  }

  /** What a run of entries is "of"; None: a line of its own. */
  function RunKey(e: Entry): Option<Key> {
    var kind := KindOf(e.action);
    if IsMove(kind) then Some(Key(OfMoves, ""))
    else if kind == Assigned then Some(Key(OfAssigning, ""))
    else if kind == Unassigned then Some(Key(OfUnassigning, ""))
    else if kind == Updated then Some(Key(OfEdits, ""))
    else if kind == Checklist then ChecklistRunKey(e)
    else if kind in {Comment, File, Blocker, External} then Some(Key(Of(e.action), ""))
    else None
  }

  function MergeKey(e: Entry): Option<Key> {
    var key := RunKey(e);
    if key.Some? && e.viaMicoAi then Some(key.value.(tail := key.value.tail + BY_AI)) else key
  }

  function WindowOf(e: Entry): int {
    if e.action == CHECKLIST_ADDED && e.listTitle != "" then ADD_WINDOW_MS else MERGE_WINDOW_MS
  }

  predicate Close(older: Entry, e: Entry) {
    older.time.Some? && e.time.Some?
    && -WindowOf(e) <= older.time.value - e.time.value <= WindowOf(e)
  }

  /** Does an entry read as one with the entry before it? */
  predicate Joins(before: Entry, e: Entry) {
    Close(before, e) && before.actorName == e.actorName && MergeKey(e).Some? && MergeKey(e) == MergeKey(before)
  }

  // ---- Groups -------------------------------------------------------------------------------------

  function Joining(): (Entry, Entry) -> bool {
    (before: Entry, e: Entry) => Joins(before, e)
  }

  /** The rows, newest first, in runs that read as one line each. */
  method BuildGroups(entries: seq<Entry>) returns (groups: seq<seq<Entry>>)
    ensures Flat(groups) == entries && AreGroups(Joining(), groups)
  {
    groups := Grouped(Joining(), entries);
  }

  /** A group has one person and one key, and neighbours are close. */
  lemma {:induction false} OneRun(g: seq<Entry>, n: nat)
    requires IsGroup(Joining(), g) && n < |g|
    ensures g[n].actorName == g[0].actorName && MergeKey(g[n]) == MergeKey(g[0])
    ensures |g| > 1 ==> MergeKey(g[0]).Some?
    ensures n > 0 ==> Close(g[n - 1], g[n])
  {
    if n > 0 {
      OneRun(g, n - 1);
      assert Joins(g[n - 1], g[n]);
    } else if |g| > 1 {
      assert Joins(g[0], g[1]);
    }
  }

  // ---- What a run is of ---------------------------------------------------------------------------

  /** Two entries of one run: both moves; or the same of assigning, unassigning, editing; or the same action, items added to one list. */
  predicate SameRun(a: Entry, b: Entry) {
    && RunKey(a).Some? && RunKey(b).Some?
    && (if IsMove(KindOf(a.action)) || KindOf(a.action) in {Assigned, Unassigned, Updated} then
          (IsMove(KindOf(a.action)) && IsMove(KindOf(b.action))) || KindOf(a.action) == KindOf(b.action)
        else a.action == b.action && (a.action == CHECKLIST_ADDED ==> a.listTitle == b.listTitle))
  }

  /** A list made by hand whose title ends as the key of what MICO AI added does. */
  predicate TitleLooksMicoAi(byHand: Entry, byAi: Entry) {
    && byHand.action == byAi.action == CHECKLIST_ADDED
    && byHand.listTitle == (if byAi.listTitle == "" then "mico-ai" else byAi.listTitle + "|mico-ai")
  }

  lemma TailsMeet(a: Entry, b: Entry)
    requires a.action == b.action == CHECKLIST_ADDED && !a.viaMicoAi && b.viaMicoAi
    ensures MergeKey(a).value.tail == MergeKey(b).value.tail <==> TitleLooksMicoAi(a, b)
  {
    var tail := RunKey(b).value.tail + BY_AI;
    if a.listTitle != "" { assert ("|" + a.listTitle)[1..] == a.listTitle; }
    if b.listTitle == "" {
      assert tail == BY_AI && "|" + "mico-ai" == BY_AI && BY_AI[1..] == "mico-ai";
    } else {
      assert tail == "|" + (b.listTitle + BY_AI) && tail[1..] == b.listTitle + BY_AI;
    }
  }

  lemma SameTails(t: string, u: string)
    ensures t + BY_AI == u + BY_AI <==> t == u
    ensures "|" + t == "|" + u <==> t == u
    ensures t + BY_AI != ""
  {
    if t + BY_AI == u + BY_AI { assert t == (t + BY_AI)[..|t|] && u == (u + BY_AI)[..|t|]; }
    assert ("|" + t)[1..] == t && ("|" + u)[1..] == u;
  }

  /** Entries of one merge key are of one run, both by hand or both through MICO AI, but for one kind of title. */
  lemma KeyIsRun(a: Entry, b: Entry)
    requires RunKey(a).Some? && RunKey(b).Some?
    ensures MergeKey(a) == MergeKey(b) <==>
      || (SameRun(a, b) && a.viaMicoAi == b.viaMicoAi)
      || (!a.viaMicoAi && b.viaMicoAi && TitleLooksMicoAi(a, b))
      || (a.viaMicoAi && !b.viaMicoAi && TitleLooksMicoAi(b, a))
  {
    SameTails(RunKey(a).value.tail, RunKey(b).value.tail);
    SameTails(a.listTitle, b.listTitle);
    if a.action == b.action == CHECKLIST_ADDED {
      if !a.viaMicoAi && b.viaMicoAi { TailsMeet(a, b); }
      if a.viaMicoAi && !b.viaMicoAi { TailsMeet(b, a); }
    }
  }

  /** Such a title folds what was added by hand with what MICO AI added: two items added to lists of these titles, one line. */
  lemma HandFoldsWithAi() returns (groups: seq<seq<Entry>>)
    ensures AreGroups(Joining(), groups) && |groups| == 1 && |groups[0]| == 2
    ensures groups[0][0].viaMicoAi && !groups[0][1].viaMicoAi && groups[0][0].listTitle != groups[0][1].listTitle
  {
    var ai := Entry(CHECKLIST_ADDED, "Omar", Some(0), true, "Rig", "", []);
    var hand := Entry(CHECKLIST_ADDED, "Omar", Some(0), false, "Rig" + BY_AI, "", []);
    KeyIsRun(ai, hand);
    groups := [[ai, hand]];
    assert Joins(ai, hand);
  }

  // ---- What edits come to -------------------------------------------------------------------------

  function PlaceOf(out: seq<FieldChange>, field: string): (n: nat)
    ensures n <= |out| && (n < |out| ==> out[n].field == field) && forall m :: 0 <= m < n ==> out[m].field != field
  {
    if out == [] then 0 else if out[0].field == field then 0 else 1 + PlaceOf(out[1..], field)
  }

  /** The changes so far with one more: the first old value of its field, and its own new one. */
  function FoldOne(out: seq<FieldChange>, c: FieldChange): seq<FieldChange> {
    var n := PlaceOf(out, c.field);
    if n < |out| then out[n := FieldChange(c.field, out[n].from, c.to, c.reason)] else out + [c]
  }

  function Folded(changes: seq<FieldChange>): seq<FieldChange> {
    if changes == [] then [] else FoldOne(Folded(changes[..|changes| - 1]), changes[|changes| - 1])
  }

  /** A value that isn't there reads as none. */
  function OrNone(v: Json): Json {
    if v.Undefined? then Null else v
  }

  /** Are two values not the very same? Lists and objects never are. */
  predicate Differ(a: Json, b: Json) {
    a.Arr? || a.Obj? || b.Arr? || b.Obj? || OrNone(a) != OrNone(b)
  }

  predicate IsShown(c: FieldChange) {
    c.field == "description" || Differ(c.from, c.to)
  }

  function AllChanges(entries: seq<Entry>): seq<FieldChange> {
    if entries == [] then [] else AllChanges(entries[..|entries| - 1]) + entries[|entries| - 1].changes
  }

  function ShownChanges(changes: seq<FieldChange>): seq<FieldChange> {
    if changes == [] then []
    else
      var rest, last := ShownChanges(changes[..|changes| - 1]), changes[|changes| - 1];
      if IsShown(last) then rest + [last] else rest
  }

  /** Successive edits, oldest first, folded per field. */
  method FoldChanges(chronological: seq<Entry>) returns (out: seq<FieldChange>)
    ensures out == ShownChanges(Folded(AllChanges(chronological)))
  {
    var byField: seq<FieldChange> := [];
    for n := 0 to |chronological|
      invariant byField == Folded(AllChanges(chronological[..n]))
    {
      assert chronological[..n + 1][..n] == chronological[..n];
      byField := FoldEntry(byField, AllChanges(chronological[..n]), chronological[n].changes);
    }
    assert chronological[..|chronological|] == chronological;
    out := OnlyShown(byField);
  }

  lemma FoldedNext(before: seq<FieldChange>, changes: seq<FieldChange>, m: nat)
    requires m < |changes|
    ensures Folded(before + changes[..m + 1]) == FoldOne(Folded(before + changes[..m]), changes[m])
  {
    var all := before + changes[..m + 1];
    assert all[..|all| - 1] == before + changes[..m];
  }

  method FoldEntry(was: seq<FieldChange>, ghost before: seq<FieldChange>, changes: seq<FieldChange>) returns (byField: seq<FieldChange>)
    requires was == Folded(before)
    ensures byField == Folded(before + changes)
  {
    byField := was;
    assert before + changes[..0] == before;
    for m := 0 to |changes|
      invariant byField == Folded(before + changes[..m])
    {
      FoldedNext(before, changes, m);
      byField := FoldOne(byField, changes[m]);
    }
    assert changes[..|changes|] == changes;
  }

  /** A value changed and changed back again is no change at all. */
  method OnlyShown(byField: seq<FieldChange>) returns (out: seq<FieldChange>)
    ensures out == ShownChanges(byField)
  {
    out := [];
    for n := 0 to |byField|
      invariant out == ShownChanges(byField[..n])
    {
      assert byField[..n + 1][..n] == byField[..n];
      if IsShown(byField[n]) { out := out + [byField[n]]; }
    }
    assert byField[..|byField|] == byField;
  }

  // ---- Folded or one by one -----------------------------------------------------------------------

  /** A field's value in a task. */
  function ValueOf(task: Fields, field: string): Json {
    OrNone(At(task, field))
  }

  function Applied(task: Fields, changes: seq<FieldChange>): Fields {
    if changes == [] then task
    else Applied(task, changes[..|changes| - 1])[changes[|changes| - 1].field := OrNone(changes[|changes| - 1].to)]
  }

  /** Each change starts from what the ones before it left. */
  predicate Contiguous(task: Fields, changes: seq<FieldChange>) {
    forall n :: 0 <= n < |changes| ==> OrNone(changes[n].from) == ValueOf(Applied(task, changes[..n]), changes[n].field)
  }

  predicate OneEach(out: seq<FieldChange>) {
    forall a, b :: 0 <= a < b < |out| ==> out[a].field != out[b].field
  }

  predicate Has(out: seq<FieldChange>, field: string) {
    PlaceOf(out, field) < |out|
  }

  /** A field has one place. */
  lemma PlaceIs(out: seq<FieldChange>, n: nat)
    requires OneEach(out) && n < |out|
    ensures PlaceOf(out, out[n].field) == n
  {
  }

  function OneMore(had: Option<FieldChange>, c: FieldChange): FieldChange {
    if had.Some? then FieldChange(c.field, had.value.from, c.to, c.reason) else c
  }

  function Find(out: seq<FieldChange>, field: string): Option<FieldChange> {
    if Has(out, field) then Some(out[PlaceOf(out, field)]) else None
  }

  lemma FoldOneIs(out: seq<FieldChange>, c: FieldChange, field: string)
    requires OneEach(out)
    ensures OneEach(FoldOne(out, c))
    ensures Find(FoldOne(out, c), field) == if field == c.field then Some(OneMore(Find(out, field), c)) else Find(out, field)
  {
    var r, n, m := FoldOne(out, c), PlaceOf(out, c.field), PlaceOf(out, field);
    assert OneEach(r);
    if field == c.field {
      PlaceIs(r, n);
    } else if m < |out| {
      assert r[m] == out[m];
      PlaceIs(r, m);
    } else {
      assert forall i :: 0 <= i < |r| ==> r[i].field != field;
    }
  }

  /** For one field, what the edits one by one leave is the fold's new value; none folded, the task's own. */
  lemma {:induction false} FoldedTo(task: Fields, changes: seq<FieldChange>, field: string)
    ensures OneEach(Folded(changes))
    ensures var c := Find(Folded(changes), field);
      ValueOf(Applied(task, changes), field) == if c.Some? then OrNone(c.value.to) else ValueOf(task, field)
  {
    if changes != [] {
      FoldedTo(task, changes[..|changes| - 1], field);
      FoldOneIs(Folded(changes[..|changes| - 1]), changes[|changes| - 1], field);
    }
  }

  lemma ContiguousInit(task: Fields, changes: seq<FieldChange>)
    requires changes != [] && Contiguous(task, changes)
    ensures var init, last := changes[..|changes| - 1], changes[|changes| - 1];
      Contiguous(task, init) && OrNone(last.from) == ValueOf(Applied(task, init), last.field)
  {
    var init := changes[..|changes| - 1];
    assert forall n :: 0 <= n < |init| ==> init[n] == changes[n] && init[..n] == changes[..n];
  }

  /** And the fold's old value is the task's own, when each edit starts from what the ones before it left. */
  lemma {:induction false} FoldedFrom(task: Fields, changes: seq<FieldChange>, field: string)
    requires Contiguous(task, changes)
    ensures var c := Find(Folded(changes), field); c.Some? ==> OrNone(c.value.from) == ValueOf(task, field)
  {
    if changes != [] {
      var init := changes[..|changes| - 1];
      ContiguousInit(task, changes);
      FoldedFrom(task, init, field);
      FoldedTo(task, init, field);
      FoldOneIs(Folded(init), changes[|changes| - 1], field);
    }
  }

  /** Applying changes of different fields: each field's own one counts. */
  lemma {:induction false} AppliedShown(task: Fields, out: seq<FieldChange>, field: string)
    requires OneEach(out)
    ensures ValueOf(Applied(task, ShownChanges(out)), field)
      == if Has(out, field) && IsShown(out[PlaceOf(out, field)]) then OrNone(out[PlaceOf(out, field)].to) else ValueOf(task, field)
  {
    if out != [] {
      var init, last := out[..|out| - 1], out[|out| - 1];
      AppliedShown(task, init, field);
      PlaceInit(out, field);
      if IsShown(last) {
        assert (ShownChanges(init) + [last])[..|ShownChanges(init)|] == ShownChanges(init);
      }
    }
  }

  lemma {:induction false} PlaceInit(out: seq<FieldChange>, field: string)
    requires out != [] && OneEach(out)
    ensures var init := out[..|out| - 1];
      PlaceOf(out, field) == if Has(init, field) then PlaceOf(init, field) else if out[|out| - 1].field == field then |out| - 1 else |out|
  {
  }

  /** Folded edits come to what the edits do one by one, when each starts from what the ones before it left. */
  lemma FoldIsFaithful(task: Fields, changes: seq<FieldChange>, field: string)
    requires Contiguous(task, changes)
    ensures ValueOf(Applied(task, ShownChanges(Folded(changes))), field) == ValueOf(Applied(task, changes), field)
  {
    FoldedTo(task, changes, field);
    FoldedFrom(task, changes, field);
    AppliedShown(task, Folded(changes), field);
  }

  /** Of fields folded once each, the shown ones stay. */
  lemma {:induction false} LeftOut(out: seq<FieldChange>, field: string)
    requires OneEach(out)
    ensures Find(ShownChanges(out), field) == if Find(out, field).Some? && IsShown(Find(out, field).value) then Find(out, field) else None
    ensures OneEach(ShownChanges(out)) && forall c :: c in ShownChanges(out) ==> c in out
  {
    if out != [] {
      var init, last := out[..|out| - 1], out[|out| - 1];
      LeftOut(init, field);
      PlaceInit(out, field);
      if IsShown(last) {
        LeftOut(init, last.field);
        var r := ShownChanges(init) + [last];
        assert ShownChanges(out) == r;
        forall n | 0 <= n < |ShownChanges(init)| ensures r[n].field != last.field { assert r[n] in init; }
        PlaceInit(r, field);
        assert r[..|r| - 1] == ShownChanges(init);
      }
    }
  }

  // ---- What is shown of a field ---------------------------------------------------------------------

  /** The first, or the last, of the edits of a field. */
  predicate IsFirst(changes: seq<FieldChange>, n: nat, field: string) {
    n < |changes| && changes[n].field == field && forall m :: 0 <= m < n ==> changes[m].field != field
  }

  predicate IsLast(changes: seq<FieldChange>, n: nat, field: string) {
    n < |changes| && changes[n].field == field && forall m :: n < m < |changes| ==> changes[m].field != field
  }

  lemma {:induction false} LastOf(changes: seq<FieldChange>, n: nat, field: string) returns (last: nat)
    requires n < |changes| && changes[n].field == field
    ensures IsLast(changes, last, field)
  {
    if changes[|changes| - 1].field == field {
      last := |changes| - 1;
    } else {
      last := LastOf(changes[..|changes| - 1], n, field);
    }
  }

  lemma {:induction false} NotFolded(changes: seq<FieldChange>, field: string)
    requires forall n :: 0 <= n < |changes| ==> changes[n].field != field
    ensures OneEach(Folded(changes)) && Find(Folded(changes), field) == None
  {
    if changes != [] {
      NotFolded(changes[..|changes| - 1], field);
      FoldOneIs(Folded(changes[..|changes| - 1]), changes[|changes| - 1], field);
    }
  }

  /** A field's fold has the first edit's old value and the last one's new value and reason. */
  lemma {:induction false} FoldedIs(changes: seq<FieldChange>, field: string, first: nat, last: nat)
    requires IsFirst(changes, first, field) && IsLast(changes, last, field)
    ensures OneEach(Folded(changes))
    ensures Find(Folded(changes), field) == Some(FieldChange(field, changes[first].from, changes[last].to, changes[last].reason))
  {
    var init := changes[..|changes| - 1];
    if last < |init| {
      FoldedIs(init, field, first, last);
    } else if first < |init| {
      var before := LastOf(init, first, field);
      FoldedIs(init, field, first, before);
    } else {
      NotFolded(init, field);
    }
    FoldOneIs(Folded(init), changes[|changes| - 1], field);
  }

  /**
    * An edited field is shown once, from the first edit's old value to the last one's new value, unless these are
    * the same and it isn't the description; whether it changed in between doesn't count.
    */
  lemma ShownIs(changes: seq<FieldChange>, field: string, first: nat, last: nat)
    requires IsFirst(changes, first, field) && IsLast(changes, last, field)
    ensures OneEach(ShownChanges(Folded(changes)))
    ensures Find(ShownChanges(Folded(changes)), field) ==
      if field == "description" || Differ(changes[first].from, changes[last].to)
      then Some(FieldChange(field, changes[first].from, changes[last].to, changes[last].reason)) else None
  {
    FoldedIs(changes, field, first, last);
    LeftOut(Folded(changes), field);
  }

  /** A field nobody edited is not shown. */
  lemma NotShown(changes: seq<FieldChange>, field: string)
    requires forall n :: 0 <= n < |changes| ==> changes[n].field != field
    ensures Find(ShownChanges(Folded(changes)), field) == None
  {
    NotFolded(changes, field);
    LeftOut(Folded(changes), field);
  }
}
