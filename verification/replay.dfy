/** How one replay of a queued change ends (Extension/src/queue.js, `makePerformMutation` and `settleConflict`). */
module Replays {
  import opened Lists
  import opened Edits
  import opened Changes
  import opened QueueWrites
  import Tags

  /** What a request got: no answer (timed out, or no connection), or a status with an error code and what its body holds. */
  datatype Response =
    | NoAnswer(timedOut: bool)
    | Answer(status: int, code: string, readable: bool, data: Json)

  /** How a replay ends: done, with the version the server names, or failed, to be treated as `outcome` says. */
  datatype Reply = Synced(made: Option<int>) | Stopped(status: Option<int>, outcome: Outcome)

  const VERSION_CONFLICT := "VERSION_CONFLICT"
  const IN_PROGRESS := "IDEMPOTENCY_IN_PROGRESS"
  const NOT_FOUND := "NOT_FOUND"

  predicate IsOk(r: Response) {
    r.Answer? && 200 <= r.status < 300
  }

  /** A 2xx answer that is the server's own: no content, or a readable body. */
  predicate IsReadable(r: Response)
    requires r.Answer?
  {
    r.status == 204 || r.readable
  }

  function OutcomeOf(status: int, code: string): Outcome {
    OutcomeForStatus(status, code == IN_PROGRESS)
  }

  function Unanswered(r: Response): Reply
    requires r.NoAnswer?
  {
    Stopped(None, if r.timedOut then Outcome.Retry else Pause)
  }

  function VersionIn(data: Json): Option<int> {
    if data.Obj? && At(data.fields, "version").Num? then Some(At(data.fields, "version").n.Floor) else None
  }

  /** A reloaded task: something with an id. */
  function TaskIn(r: Response): Option<Fields>
    requires r.Answer?
  {
    if IsReadable(r) && r.status != 204 && r.data.Obj? && !Blank(At(r.data.fields, "id")) then Some(r.data.fields) else None
  }

  /** The tag names a reload of a task's tags lists, when it is a list. */
  function NamesIn(r: Response): Option<seq<string>>
    requires r.Answer?
  {
    if IsReadable(r) && r.status != 204 && r.data.Arr? then Some(TagNames(r.data.elems)) else None
  }

  function TagNames(rows: seq<Json>): seq<string> {
    if rows == [] then []
    else
      var row := rows[|rows| - 1];
      TagNames(rows[..|rows| - 1]) + (if row.Obj? && At(row.fields, "name").Str? then [At(row.fields, "name").s] else [])
  }

  /** A delete that finds nothing to delete has done its job. */
  predicate AlreadyGone(c: Change, status: int, code: string) {
    (c.CommentDelete? || c.AttachmentDelete? || c.TaskDelete? || c.ContactDelete?) && status == 404 && code == NOT_FOUND
  }

  predicate ReadsTagsFirst(c: Change) {
    c.TaskTags? && c.base.Some?
  }

  /** The check of an edit the server refused for its version: done when the reloaded task holds it. */
  function SettleConflict(patch: Fields, reload: Response): Reply {
    if reload.NoAnswer? then Unanswered(reload)
    else if !IsOk(reload) && reload.status != 403 && reload.status != 404 then
      Stopped(Some(reload.status), if OutcomeForStatus(reload.status, false) == Pause then Pause else Outcome.Retry)
    else if !IsOk(reload) then Stopped(Some(409), Fail)
    else if TaskIn(reload).None? then Stopped(None, Pause)
    else if PatchHeld(TaskIn(reload).value, patch) then Synced(VersionIn(reload.data))
    else Stopped(Some(409), Fail)
  }

  /** The answer a change got: its own, or the refusal of the read of the task's tags. */
  function Concluded(c: Change, res: Response, reload: Response): Reply
    requires res.Answer?
  {
    if !IsOk(res) then
      if c.TaskUpdate? && res.status == 409 && res.code == VERSION_CONFLICT then SettleConflict(c.patch, reload)
      else if AlreadyGone(c, res.status, res.code) then Synced(None)
      else Stopped(Some(res.status), OutcomeOf(res.status, res.code))
    else if !IsReadable(res) then Stopped(None, Pause)
    else Synced(if res.status == 204 then None else VersionIn(res.data))
  }

  /**
    * One replay: `tags` answers the read of the task's tags (for a change that knows the list it started
    * from), `sent` the change itself, and `reload` the reload of a task whose edit was refused.
    */
  function Perform(c: Change, tags: Response, sent: Response, reload: Response): Reply {
    if ReadsTagsFirst(c) && tags.NoAnswer? then Unanswered(tags)
    else if ReadsTagsFirst(c) && !IsOk(tags) then Concluded(c, tags, reload)
    else if ReadsTagsFirst(c) && NamesIn(tags).None? then Stopped(None, Pause)
    else if sent.NoAnswer? then Unanswered(sent)
    else Concluded(c, sent, reload)
  }

  // ---- What a refused edit comes to -----------------------------------------------------------------

  /** The reload of a task as it is, by the server itself. */
  predicate Reloads(reload: Response, task: Fields) {
    IsOk(reload) && reload.status != 204 && reload.readable && reload.data == Obj(task) && !Blank(At(task, "id"))
  }

  predicate RefusedForVersion(sent: Response) {
    sent.Answer? && sent.status == 409 && sent.code == VERSION_CONFLICT
  }

  /** An edit refused for its version is settled exactly when the reloaded task holds it, and fails exactly when it doesn't, or is gone. */
  lemma ConflictSettles(c: Change, tags: Response, sent: Response, reload: Response)
    requires c.TaskUpdate? && RefusedForVersion(sent)
    ensures Perform(c, tags, sent, reload).Synced? <==> IsOk(reload) && TaskIn(reload).Some? && PatchHeld(TaskIn(reload).value, c.patch)
    ensures var r := Perform(c, tags, sent, reload);
      r.Stopped? && r.outcome == Fail <==>
        reload.Answer? && (reload.status == 403 || reload.status == 404 ||
                           (IsOk(reload) && TaskIn(reload).Some? && !PatchHeld(TaskIn(reload).value, c.patch)))
  {
  }

  /**
    * A lost reply to an edit settles: the first try landed, nobody else wrote, and the replay is refused
    * for its version; whatever the reload answers short of "gone", the edit is never failed, and a reload
    * that shows the task counts it synced at the version the first try made.
    */
  lemma LostReplySettles(c: Change, before: Fields, anchorDay: Json, version: nat, tags: Response, sent: Response, reload: Response)
    requires c.TaskUpdate? && WellTyped(c.patch) && "id" !in c.patch && "version" !in c.patch
    requires RefusedForVersion(sent)
    requires !Blank(At(before, "id"))
    requires IsOk(reload) && TaskIn(reload).Some? ==>
      Reloads(reload, Stored(before, c.patch, anchorDay)["version" := Num(version as real)])
    requires reload.Answer? ==> reload.status != 403 && reload.status != 404
    ensures IsOk(reload) && TaskIn(reload).Some? ==> Perform(c, tags, sent, reload) == Synced(Some(version))
    ensures var r := Perform(c, tags, sent, reload); r.Stopped? ==> r.outcome != Fail
  {
    if IsOk(reload) && TaskIn(reload).Some? {
      var stored := Stored(before, c.patch, anchorDay);
      StoredHeld(before, c.patch, anchorDay);
      var now := stored["version" := Num(version as real)];
      forall field | field in c.patch ensures FieldHeld(field, c.patch[field], At(now, field)) {
        assert FieldHeld(field, c.patch[field], At(stored, field));
        assert At(now, field) == At(stored, field);
      }
      assert (version as real).Floor == version;
    }
  }

  /** A replay that fails for good had a real answer: never a timeout, a lost connection, a 401, 408, 429 or 5xx. */
  lemma FailsOnAnswers(c: Change, tags: Response, sent: Response, reload: Response)
    ensures var r := Perform(c, tags, sent, reload);
      r.Stopped? && r.outcome == Fail ==>
        r.status.Some? && r.status.value < 500 && r.status.value !in {401, 408, 429}
  {
  }
}
