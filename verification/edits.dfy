/** What an edit sent and what the server holds: `same` and `patchHeld` (Extension/src/task-writes.js). */
module Edits {

  /** A value as JSON carries it, `undefined` (a field not there) included; numbers are never NaN. */
  datatype Json =
    | Null
    | Undefined
    | Bool(flag: bool)
    | Num(n: real)
    | Str(s: string)
    | Arr(elems: seq<Json>)
    | Obj(fields: map<string, Json>)

  type Fields = map<string, Json>

  function At(o: Fields, key: string): Json {
    if key in o then o[key] else Undefined
  }

  predicate Blank(v: Json) {
    v.Null? || v.Undefined? || v == Str("")
  }

  /** Added by the server to a saved repeat. */
  const ANCHOR := "anchorDay"

  /** Two values that mean the same: blanks alike; objects key by key, the server's anchor day aside. */
  predicate Same(a: Json, b: Json)
    decreases a
  {
    if Blank(a) && Blank(b) then true
    else if a.Arr? || b.Arr? then
      a.Arr? && b.Arr? && |a.elems| == |b.elems| && forall i :: 0 <= i < |a.elems| ==> Same(a.elems[i], b.elems[i])
    else if a.Obj? && b.Obj? then
      && (forall k :: k in a.fields && k != ANCHOR ==> Same(a.fields[k], At(b.fields, k)))
      && (forall k :: k in b.fields && k !in a.fields && k != ANCHOR ==> Blank(b.fields[k]))
    else a == b
  }

  lemma {:induction false} SameReflexive(a: Json)
    ensures Same(a, a)
  {
    match a
    case Arr(elems) =>
      forall i | 0 <= i < |elems| ensures Same(elems[i], elems[i]) { SameReflexive(elems[i]); }
    case Obj(fields) =>
      forall k | k in fields ensures Same(fields[k], fields[k]) { SameReflexive(fields[k]); }
    case _ =>
  }

  lemma {:induction false} SameSymmetric(a: Json, b: Json)
    requires Same(a, b)
    ensures Same(b, a)
    decreases a
  {
    if a.Arr? && b.Arr? {
      forall i | 0 <= i < |a.elems| ensures Same(b.elems[i], a.elems[i]) { SameSymmetric(a.elems[i], b.elems[i]); }
    } else if a.Obj? && b.Obj? {
      forall k | k in b.fields && k != ANCHOR ensures Same(b.fields[k], At(a.fields, k)) {
        if k in a.fields { SameSymmetric(a.fields[k], b.fields[k]); }
      }
      forall k | k in a.fields && k !in b.fields && k != ANCHOR ensures Blank(a.fields[k]) {
        assert Same(a.fields[k], Undefined);
      }
    }
  }

  lemma {:induction false} SameTransitive(a: Json, b: Json, c: Json)
    requires Same(a, b) && Same(b, c)
    ensures Same(a, c)
    decreases a
  {
    if a.Arr? && b.Arr? && c.Arr? {
      forall i | 0 <= i < |a.elems| ensures Same(a.elems[i], c.elems[i]) { SameTransitive(a.elems[i], b.elems[i], c.elems[i]); }
    } else if a.Obj? && b.Obj? && c.Obj? {
      forall k | k in a.fields && k != ANCHOR ensures Same(a.fields[k], At(c.fields, k)) {
        assert Same(a.fields[k], At(b.fields, k));
        assert Same(At(b.fields, k), At(c.fields, k));
        SameTransitive(a.fields[k], At(b.fields, k), At(c.fields, k));
      }
      forall k | k in c.fields && k !in a.fields && k != ANCHOR ensures Blank(c.fields[k]) {
        if k in b.fields { assert Same(b.fields[k], c.fields[k]); }
      }
    }
  }

  const DAY_FIELDS := {"dueDate", "startDate"}

  function FirstTen(s: string): string {
    if |s| <= 10 then s else s[..10]
  }

  predicate SameDay(sent: Json, current: Json) {
    if Blank(sent) then Blank(current)
    else !Blank(current) && if sent.Str? && current.Str? then FirstTen(sent.s) == FirstTen(current.s) else sent == current
  }

  /** `v || ''`. */
  function OrEmpty(v: Json): Json {
    if Blank(v) || v == Bool(false) || v == Num(0.0) then Str("") else v
  }

  /** `===`: two lists or objects from two places are never the same one. */
  predicate StrictEqual(a: Json, b: Json) {
    a == b && !a.Arr? && !a.Obj?
  }

  predicate FieldHeld(field: string, sent: Json, current: Json) {
    if field == "expectedVersion" || field == "scope" then true
    else if field in DAY_FIELDS then SameDay(sent, current)
    else if field == "description" then StrictEqual(OrEmpty(sent), OrEmpty(current))
    else Same(sent, current)
  }

  /** Whether the server's copy of a task already holds every value an edit set. */
  predicate PatchHeld(task: Fields, patch: Fields) {
    forall field :: field in patch ==> FieldHeld(field, patch[field], At(task, field))
  }

  // ---- The server's own spelling of what was sent ---------------------------------------------

  /** Blanks become null, a saved repeat gets its anchor day, everything else is kept. */
  function Spelled(sent: Json, anchorDay: Json): Json
    decreases sent
  {
    if Blank(sent) then Null
    else match sent
      case Arr(elems) => Arr(seq(|elems|, i requires 0 <= i < |elems| => Spelled(elems[i], anchorDay)))
      case Obj(fields) => Obj((map k | k in fields :: Spelled(fields[k], anchorDay))[ANCHOR := anchorDay])
      case _ => sent
  }

  function StoredField(field: string, sent: Json, anchorDay: Json): Json {
    if Blank(sent) then Null
    else if field in DAY_FIELDS then (if sent.Str? then Str(FirstTen(sent.s) + "T00:00:00.000Z") else sent)
    else if field == "description" then sent
    else Spelled(sent, anchorDay)
  }

  /** The task after an accepted edit: the sent fields as the server spells them, the rest as it was. */
  function Stored(task: Fields, patch: Fields, anchorDay: Json): Fields {
    map field | field in task.Keys + patch.Keys ::
      if field in patch then StoredField(field, patch[field], anchorDay) else task[field]
  }

  lemma {:induction false} SpelledSame(sent: Json, anchorDay: Json)
    ensures Same(sent, Spelled(sent, anchorDay))
    decreases sent
  {
    match sent
    case Arr(elems) =>
      forall i | 0 <= i < |elems| ensures Same(elems[i], Spelled(elems[i], anchorDay)) { SpelledSame(elems[i], anchorDay); }
    case Obj(fields) =>
      forall k | k in fields && k != ANCHOR ensures Same(fields[k], Spelled(fields[k], anchorDay)) {
        SpelledSame(fields[k], anchorDay);
      }
    case _ =>
  }

  /** The form of its fields the server takes: a description is text, a day is written `yyyy-mm-dd`, or blank. */
  predicate WellTyped(patch: Fields) {
    && ("description" in patch ==> Blank(patch["description"]) || patch["description"].Str?)
    && (forall day :: day in DAY_FIELDS && day in patch ==>
          Blank(patch[day]) || (patch[day].Str? && |patch[day].s| >= 10))
  }

  /** A task that took an edit, and that nobody changed since, holds that edit. */
  lemma StoredHeld(task: Fields, patch: Fields, anchorDay: Json)
    requires WellTyped(patch)
    ensures PatchHeld(Stored(task, patch, anchorDay), patch)
  {
    forall field | field in patch ensures FieldHeld(field, patch[field], At(Stored(task, patch, anchorDay), field)) {
      var sent := patch[field];
      SpelledSame(sent, anchorDay);
      if field in DAY_FIELDS && !Blank(sent) && sent.Str? {
        var kept := FirstTen(sent.s) + "T00:00:00.000Z";
        assert |kept| > 0;
        if |sent.s| >= 10 {
          assert FirstTen(kept) == FirstTen(sent.s);
        }
      }
    }
  }

  /** A held edit is done: what storing it once more would write is what the task shows already. */
  lemma HeldIsDone(task: Fields, patch: Fields, anchorDay: Json)
    requires WellTyped(patch)
    requires PatchHeld(task, patch)
    ensures forall field :: field in patch ==> FieldHeld(field, At(Stored(task, patch, anchorDay), field), At(task, field))
    ensures PatchHeld(Stored(task, patch, anchorDay), patch)
  {
    StoredHeld(task, patch, anchorDay);
    var stored := Stored(task, patch, anchorDay);
    forall field | field in patch ensures FieldHeld(field, At(stored, field), At(task, field)) {
      var sent, current := patch[field], At(task, field);
      assert FieldHeld(field, sent, current);
      if field == "expectedVersion" || field == "scope" {
      } else if field in DAY_FIELDS {
        assert FieldHeld(field, sent, At(stored, field));
      } else if field == "description" {
      } else {
        SpelledSame(sent, anchorDay);
        SameSymmetric(sent, Spelled(sent, anchorDay));
        SameTransitive(Spelled(sent, anchorDay), sent, current);
      }
    }
  }
}
