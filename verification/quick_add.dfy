/**
  * The quick-add form (Extension/popup/quick-add-form.js): one key per task, kept with the form before it is sent,
  * so that closing the popup at any point makes no second task. A step is what the form, its draft in the session
  * storage, or the server does between two waits.
  */
module QuickAdd {
  import Lists
  import opened Changes

  /** An attempt's key and the task it was made for. */
  datatype Keyed = Keyed(key: string, payload: string)

  /** What is kept for when the popup opens again. `filling` tells one filling of the form from the next. */
  datatype Draft =
    | NoDraft
    | TaskMade(filling: nat, key: string)
    | Unsent(filling: nat, payload: string, pending: Option<Keyed>)

  /** Waiting for the draft to be written, for the server, for the new task to be noted, for its files; or for nothing. */
  datatype Phase = Ready | Keeping(withFiles: bool) | InFlight(withFiles: bool) | Noting(withFiles: bool) | Uploading

  datatype Form = Form(filling: nat, payload: string, files: bool, pending: Option<Keyed>, held: Option<Keyed>,
    created: Option<string>, phase: Phase)

  datatype Attempt = Attempt(filling: nat, payload: string, key: string)

  /** How a try ends: the task, kept waiting with its files, queued on the device, refused for good, or not known. */
  datatype Answer = GotTask | WasHeld | WasQueued | WasRefused | NotKnown

  /**
    * `writes` are the draft's writes under way, in order. The rest is history and the server: the fillings begun,
    * the tries made, the keys used, the keys sent, and those the server made a task for or refused for good.
    */
  datatype State = State(form: Option<Form>, draft: Draft, writes: seq<Draft>, fillings: nat, attempts: seq<Attempt>,
    keys: set<string>, asked: set<string>, created: set<string>, refused: set<string>)

  datatype Step =
    | Open
    | Close
    | WriteDraft
    | Edit(payload: string, files: bool)
    | Submit(newKey: string, online: bool)
    | SaveWithoutFiles
    | Send
    | Reply(answer: Answer)
    | Noted
    | Uploaded(all: bool)
    | Done
    | Clear
    | Create(key: string)
    | Refuse(key: string)

  predicate CanChange(s: State) {
    s.form.Some? && s.form.value.phase == Ready && s.form.value.created == None
  }

  predicate Enabled(s: State, step: Step) {
    match step
    case Open => s.form == None
    case Close => s.form.Some?
    case WriteDraft => s.writes != []
    case Edit(_, _) => CanChange(s)
    case Submit(newKey, _) => CanChange(s) && s.form.value.payload != "" && newKey !in s.keys
    case SaveWithoutFiles => CanChange(s) && s.form.value.held.Some?
    case Send => s.form.Some? && s.form.value.phase.Keeping? && s.writes == []
    case Reply(answer) =>
      && s.form.Some? && s.form.value.phase.InFlight? && s.form.value.pending.Some?
      && (answer.GotTask? ==> s.form.value.pending.value.key in s.created)
      && (answer.WasRefused? ==> s.form.value.pending.value.key in s.refused)
      && (answer.WasHeld? ==> s.form.value.phase.withFiles) && (answer.WasQueued? ==> !s.form.value.phase.withFiles)
    case Noted => s.form.Some? && s.form.value.phase.Noting? && s.writes == []
    case Uploaded(_) => s.form.Some? && s.form.value.phase.Uploading?
    case Done => s.form.Some? && s.form.value.phase == Ready && s.form.value.created.Some?
    case Clear => CanChange(s)
    // A key that was sent may reach the server at any time after, from the form, the queue or a slow connection.
    case Create(key) => key in s.asked && key !in s.refused
    case Refuse(key) => key in s.asked && key !in s.created
  }

  /** The draft a form is kept as. */
  function DraftOf(f: Form): Draft {
    if f.created.Some? then TaskMade(f.filling, f.created.value)
    else if f.payload != "" || f.files then Unsent(f.filling, f.payload, f.pending)
    else NoDraft
  }

  /** The form changes, and its draft is written. */
  function Saving(s: State, f: Form): State {
    s.(form := Some(f), writes := s.writes + [DraftOf(f)])
  }

  function Blank(filling: nat): Form {
    Form(filling, "", false, None, None, None, Ready)
  }

  /** The next task's form. */
  function Reset(s: State): State {
    Saving(s.(fillings := s.fillings + 1), Blank(s.fillings))
  }

  /** One key per task: a held one's, that of the last try of the same task, or a new one. */
  function KeyFor(f: Form, newKey: string): string {
    if f.held.Some? then f.held.value.key
    else if f.pending.Some? && f.pending.value.payload == f.payload then f.pending.value.key
    else newKey
  }

  /** A try begins: its key is kept with the form first. */
  function Trying(s: State, f: Form, p: Keyed, withFiles: bool): State {
    Saving(s, f.(pending := Some(p), phase := Keeping(withFiles)))
      .(attempts := s.attempts + [Attempt(f.filling, p.payload, p.key)], keys := s.keys + {p.key})
  }

  function Apply(s: State, step: Step): State
    requires Enabled(s, step)
  {
    match step
    case Open =>
      (match s.draft
       case TaskMade(_, _) => Reset(s)
       case Unsent(filling, payload, pending) => Saving(s, Form(filling, payload, false, pending, None, None, Ready))
       case NoDraft => s.(form := Some(Blank(s.fillings)), fillings := s.fillings + 1))
    case Close => s.(form := None, writes := [])
    case WriteDraft => s.(draft := s.writes[0], writes := s.writes[1..])
    case Edit(payload, files) => Saving(s, s.form.value.(payload := payload, files := files, held := None))
    case Submit(newKey, online) =>
      var f := s.form.value;
      var p := Keyed(KeyFor(f, newKey), f.payload);
      if f.files && !online then s.(form := Some(f.(held := Some(p))), keys := s.keys + {p.key})
      else Trying(s, f, p, f.files)
    case SaveWithoutFiles => Trying(s, s.form.value, s.form.value.held.value, false)
    case Send => s.(form := Some(s.form.value.(phase := InFlight(s.form.value.phase.withFiles))),
      asked := s.asked + (if s.form.value.pending.Some? then {s.form.value.pending.value.key} else {}))
    case Reply(answer) =>
      var f := s.form.value;
      (match answer
       case GotTask => Saving(s, f.(pending := None, created := Some(f.pending.value.key), phase := Noting(f.phase.withFiles)))
       case WasHeld => s.(form := Some(f.(held := f.pending, phase := Ready)))
       case WasQueued => Reset(s)
       case WasRefused => Saving(s, f.(pending := None, held := None, phase := Ready))
       case NotKnown => s.(form := Some(f.(phase := Ready))))
    case Noted => if s.form.value.phase.withFiles then s.(form := Some(s.form.value.(phase := Uploading))) else Reset(s)
    case Uploaded(all) => if all then Reset(s) else s.(form := Some(s.form.value.(phase := Ready)))
    case Done => Reset(s)
    case Clear => Reset(s)
    case Create(key) => s.(created := s.created + {key})
    case Refuse(key) => s.(refused := s.refused + {key})
  }

  const START := State(None, NoDraft, [], 0, [], {}, {}, {}, {})

  predicate Goes(s: State, step: Step, t: State) {
    Enabled(s, step) && t == Apply(s, step)
  }

  ghost predicate Follows(s: State, t: State) {
    exists step :: Goes(s, step, t)
  }

  ghost predicate IsRun(run: seq<State>) {
    run != [] && run[0] == START && forall i :: 0 < i < |run| ==> Follows(run[i - 1], run[i])
  }

  // ---- The invariant ------------------------------------------------------------------------------

  /** All drafts that may be found when the popup opens again. */
  function Drafts(s: State): seq<Draft> {
    [s.draft] + s.writes
  }

  predicate HasKey(p: Option<Keyed>, key: string) {
    p.Some? && p.value.key == key
  }

  predicate InForm(s: State, key: string) {
    s.form.Some? && (HasKey(s.form.value.pending, key) || HasKey(s.form.value.held, key))
  }

  predicate InDraft(d: Draft, key: string) {
    d.Unsent? && HasKey(d.pending, key)
  }

  predicate InDrafts(s: State, key: string) {
    exists n :: 0 <= n < |Drafts(s)| && InDraft(Drafts(s)[n], key)
  }

  /** A key a task may come of: sent, or still to be sent, and not refused. */
  predicate MayCreate(s: State, key: string) {
    key !in s.refused && (key in s.asked || InForm(s, key) || InDrafts(s, key))
  }

  /** From this try on, every try of the filling was of the same task. */
  predicate SameSince(attempts: seq<Attempt>, i: nat, j: nat)
    requires i <= j <= |attempts|
  {
    forall m :: i < m < j && attempts[m].filling == attempts[i].filling ==> attempts[m].payload == attempts[i].payload
  }

  /** Two tries of one filling with no other task tried between them. */
  predicate SameTask(attempts: seq<Attempt>, i: nat, j: nat)
    requires i <= j < |attempts|
  {
    attempts[i].filling == attempts[j].filling && SameSince(attempts, i, j + 1)
  }

  /** The key a form or draft keeps is that of every earlier try of the same task that may have made one. */
  predicate Keeps(s: State, filling: nat, p: Option<Keyed>, i: nat)
    requires i < |s.attempts|
  {
    s.attempts[i].filling == filling && SameSince(s.attempts, i, |s.attempts|) ==>
      p == Some(Keyed(s.attempts[i].key, s.attempts[i].payload))
  }

  function Tried(attempts: seq<Attempt>): set<string> {
    set i | 0 <= i < |attempts| :: attempts[i].key
  }

  /** The key of a try, each of them in this filling and of this task. */
  predicate Owns(s: State, filling: nat, p: Keyed) {
    p.key in Tried(s.attempts) && forall i :: 0 <= i < |s.attempts| && s.attempts[i].key == p.key ==>
      s.attempts[i].filling == filling && s.attempts[i].payload == p.payload
  }

  predicate DraftOk(s: State, d: Draft) {
    match d
    case NoDraft => true
    case TaskMade(filling, key) => filling < s.fillings && key in s.created
    case Unsent(filling, _, pending) =>
      && filling < s.fillings && (pending.Some? ==> Owns(s, filling, pending.value))
      && forall i :: 0 <= i < |s.attempts| && s.attempts[i].key in s.asked && s.attempts[i].key !in s.refused ==> Keeps(s, filling, pending, i)
  }

  /** A held task is the form's, under the key last tried or one not tried yet. */
  predicate HeldOk(s: State, f: Form) {
    f.held.Some? ==>
      && f.held.value.payload == f.payload && f.payload != "" && f.held.value.key in s.keys
      && (f.pending == f.held || (f.held.value.key !in Tried(s.attempts) && (f.pending.Some? ==> f.pending.value.payload != f.payload)))
  }

  /** A draft of this filling keeps the form's key, or one refused since. */
  predicate Agrees(s: State, f: Form, d: Draft) {
    d.Unsent? && d.filling == f.filling ==>
      d.pending == f.pending || (f.pending == None && d.pending.Some? && d.pending.value.key in s.refused)
  }

  predicate FormBase(s: State, f: Form) {
    && f.filling < s.fillings
    && (f.pending.Some? ==> Owns(s, f.filling, f.pending.value))
    && (f.created == None ==> HeldOk(s, f))
    && (f.created == None ==> forall i :: 0 <= i < |s.attempts| && MayCreate(s, s.attempts[i].key) ==> Keeps(s, f.filling, f.pending, i))
    && (f.created == None && !f.phase.Keeping? ==> forall n :: 0 <= n < |Drafts(s)| ==> Agrees(s, f, Drafts(s)[n]))
    && (f.phase.Keeping? || f.phase.InFlight? ==> f.created == None && f.pending.Some? && f.pending.value.payload == f.payload && f.payload != "")
    && (f.phase.Keeping? || f.phase.InFlight? ==> f.held == None || f.held == f.pending)
    && (f.phase.Noting? || f.phase.Uploading? ==> f.created.Some?)
    && (f.created.Some? ==> f.created.value in s.created && f.pending == None)
  }

  /** A try waits for the form to be kept with its key. */
  predicate FormOk(s: State, f: Form) {
    FormBase(s, f) && (f.phase.Keeping? ==> Drafts(s)[|s.writes|] == DraftOf(f))
  }

  predicate Known(s: State) {
    && s.asked <= Tried(s.attempts) <= s.keys && s.created <= s.asked && s.refused <= s.asked && s.created !! s.refused
    && forall i :: 0 <= i < |s.attempts| ==> s.attempts[i].filling < s.fillings
  }

  /** Two tries of one task, with no other task tried between them, that both may make a task: one key. */
  predicate OneKey(s: State) {
    forall i, j :: 0 <= i < j < |s.attempts| && SameTask(s.attempts, i, j) && MayCreate(s, s.attempts[i].key) && MayCreate(s, s.attempts[j].key) ==>
      s.attempts[i].key == s.attempts[j].key
  }

  predicate Inv(s: State) {
    && Known(s) && OneKey(s)
    && (forall n :: 0 <= n < |Drafts(s)| ==> DraftOk(s, Drafts(s)[n]))
    && (s.form.Some? ==> FormOk(s, s.form.value))
    && (s.form.None? ==> s.writes == [])
  }

  // ---- Steps that try nothing new -----------------------------------------------------------------

  /** Nothing is tried, and no key comes back to life. */
  predicate Quiet(s: State, t: State) {
    && t.attempts == s.attempts && s.keys <= t.keys && s.fillings <= t.fillings
    && s.asked <= t.asked && s.created <= t.created && s.refused <= t.refused
    && forall i :: 0 <= i < |s.attempts| && MayCreate(t, s.attempts[i].key) ==> MayCreate(s, s.attempts[i].key)
  }

  lemma QuietOneKey(s: State, t: State)
    requires OneKey(s) && Quiet(s, t)
    ensures OneKey(t)
  {
  }

  lemma QuietKeeps(s: State, t: State, filling: nat, p: Option<Keyed>)
    requires Quiet(s, t) && forall i :: 0 <= i < |s.attempts| && MayCreate(s, s.attempts[i].key) ==> Keeps(s, filling, p, i)
    ensures forall i :: 0 <= i < |t.attempts| && MayCreate(t, t.attempts[i].key) ==> Keeps(t, filling, p, i)
  {
    forall i | 0 <= i < |t.attempts| && MayCreate(t, t.attempts[i].key) ensures Keeps(t, filling, p, i) {
      assert Keeps(s, filling, p, i);
    }
  }

  lemma QuietDraft(s: State, t: State, d: Draft)
    requires Quiet(s, t) && DraftOk(s, d) && t.asked == s.asked
    ensures DraftOk(t, d)
  {
    if d.Unsent? {
      forall i | 0 <= i < |t.attempts| && t.attempts[i].key in t.asked && t.attempts[i].key !in t.refused ensures Keeps(t, d.filling, d.pending, i) {
        assert Keeps(s, d.filling, d.pending, i);
      }
    }
  }

  /** A form's own draft is right when the form is. */
  lemma OwnDraft(s: State, f: Form)
    requires Known(s) && s.form == Some(f) && FormBase(s, f)
    ensures DraftOk(s, DraftOf(f))
  {
    if DraftOf(f).Unsent? {
      forall i | 0 <= i < |s.attempts| && s.attempts[i].key in s.asked && s.attempts[i].key !in s.refused ensures Keeps(s, f.filling, f.pending, i) {
        assert MayCreate(s, s.attempts[i].key);
      }
    }
  }

  lemma CloseKeeps(s: State)
    requires Inv(s) && Enabled(s, Close)
    ensures Inv(Apply(s, Close))
  {
    var t := Apply(s, Close);
    forall k | MayCreate(t, k) ensures MayCreate(s, k) {
      if InDrafts(t, k) { assert InDraft(Drafts(s)[0], k); }
    }
    assert Drafts(t)[0] == Drafts(s)[0];
    QuietOneKey(s, t);
    QuietDraft(s, t, s.draft);
  }

  lemma WriteIsQuiet(s: State)
    requires Enabled(s, WriteDraft)
    ensures var t := Apply(s, WriteDraft);
      Quiet(s, t) && t.form == s.form && t.asked == s.asked && |Drafts(t)| + 1 == |Drafts(s)| && forall n :: 0 <= n < |Drafts(t)| ==> Drafts(t)[n] == Drafts(s)[n + 1]
  {
    var t := Apply(s, WriteDraft);
    assert Drafts(t) == s.writes;
    forall k | MayCreate(t, k) ensures MayCreate(s, k) {
      if InDrafts(t, k) {
        var n :| 0 <= n < |Drafts(t)| && InDraft(Drafts(t)[n], k);
        assert InDraft(Drafts(s)[n + 1], k);
      }
    }
  }

  lemma WriteKeeps(s: State)
    requires Inv(s) && Enabled(s, WriteDraft)
    ensures Inv(Apply(s, WriteDraft))
  {
    var t := Apply(s, WriteDraft);
    WriteIsQuiet(s);
    QuietOneKey(s, t);
    forall n | 0 <= n < |Drafts(t)| ensures DraftOk(t, Drafts(t)[n]) { QuietDraft(s, t, Drafts(s)[n + 1]); }
    var f := s.form.value;
    if f.created == None { QuietKeeps(s, t, f.filling, f.pending); }
    if f.created == None && !f.phase.Keeping? {
      forall n | 0 <= n < |Drafts(t)| ensures Agrees(t, f, Drafts(t)[n]) { assert Agrees(s, f, Drafts(s)[n + 1]); }
    }
  }

  predicate DraftsOk(s: State) {
    forall n :: 0 <= n < |Drafts(s)| ==> DraftOk(s, Drafts(s)[n])
  }

  /** Everything but the last draft of the form. */
  predicate Base(s: State) {
    Known(s) && OneKey(s) && DraftsOk(s) && s.form.Some? && FormBase(s, s.form.value)
  }

  /** Writing the form's draft keeps everything right. */
  lemma SavingKeeps(u: State, f: Form)
    requires Base(u) && u.form == Some(f)
    ensures Inv(Saving(u, f))
  {
    var t := Saving(u, f);
    assert Drafts(t) == Drafts(u) + [DraftOf(f)];
    forall k | MayCreate(t, k) ensures MayCreate(u, k) {
      if InDrafts(t, k) {
        var n :| 0 <= n < |Drafts(t)| && InDraft(Drafts(t)[n], k);
        if n < |Drafts(u)| { assert InDraft(Drafts(u)[n], k); }
      }
    }
    QuietOneKey(u, t);
    OwnDraft(u, f);
    forall n | 0 <= n < |Drafts(t)| ensures DraftOk(t, Drafts(t)[n]) {
      if n < |Drafts(u)| { QuietDraft(u, t, Drafts(u)[n]); } else { QuietDraft(u, t, DraftOf(f)); }
    }
    if f.created == None {
      QuietKeeps(u, t, f.filling, f.pending);
      if !f.phase.Keeping? {
        forall n | 0 <= n < |Drafts(t)| ensures Agrees(t, f, Drafts(t)[n]) {
          if n < |Drafts(u)| { assert Agrees(u, f, Drafts(u)[n]); }
        }
      }
    }
  }

  /** A new form for the next task. */
  lemma ResetKeeps(s: State)
    requires Known(s) && OneKey(s) && DraftsOk(s)
    ensures Inv(Reset(s))
  {
    var u := s.(form := Some(Blank(s.fillings)), fillings := s.fillings + 1);
    BlankBase(s, u);
    SavingKeeps(u, Blank(s.fillings));
    assert Saving(u, Blank(s.fillings)) == Reset(s);
  }

  lemma BlankBase(s: State, u: State)
    requires Known(s) && OneKey(s) && DraftsOk(s) && u == s.(form := Some(Blank(s.fillings)), fillings := s.fillings + 1)
    ensures Base(u)
  {
    assert Drafts(u) == Drafts(s);
    forall k | MayCreate(u, k) ensures MayCreate(s, k) { }
    QuietOneKey(s, u);
    forall n | 0 <= n < |Drafts(u)| ensures DraftOk(u, Drafts(u)[n]) && Agrees(u, Blank(s.fillings), Drafts(u)[n]) {
      assert DraftOk(s, Drafts(s)[n]);
      QuietDraft(s, u, Drafts(s)[n]);
    }
  }

  lemma OpenKeeps(s: State)
    requires Inv(s) && Enabled(s, Open)
    ensures Inv(Apply(s, Open))
  {
    assert Drafts(s) == [s.draft];
    assert DraftOk(s, Drafts(s)[0]);
    match s.draft
    case TaskMade(_, _) => ResetKeeps(s);
    case NoDraft => BlankBase(s, Apply(s, Open));
    case Unsent(filling, payload, pending) =>
      var f := Form(filling, payload, false, pending, None, None, Ready);
      var u := s.(form := Some(f));
      assert Drafts(u) == [s.draft];
      forall k | MayCreate(u, k) ensures MayCreate(s, k) && (k in s.asked || HasKey(pending, k)) {
        if HasKey(pending, k) { assert InDraft(Drafts(s)[0], k); }
        if InDrafts(u, k) { assert InDraft(Drafts(u)[0], k); }
      }
      QuietOneKey(s, u);
      QuietDraft(s, u, s.draft);
      forall i | 0 <= i < |u.attempts| && MayCreate(u, u.attempts[i].key) ensures Keeps(u, filling, pending, i) {
        if u.attempts[i].key in s.asked { assert Keeps(s, filling, pending, i); }
      }
      SavingKeeps(u, f);
  }

  /** The form goes on under keys it has; the drafts stay. */
  lemma FormGoesOn(s: State, u: State, f: Form)
    requires Inv(s) && s.form.Some? && u == s.(form := Some(f))
    requires forall k :: InForm(u, k) && k in Tried(s.attempts) ==> InForm(s, k)
    ensures Known(u) && OneKey(u) && DraftsOk(u) && Quiet(s, u)
  {
    assert Drafts(u) == Drafts(s);
    forall i | 0 <= i < |s.attempts| && MayCreate(u, s.attempts[i].key) ensures MayCreate(s, s.attempts[i].key) {
      assert s.attempts[i].key in Tried(s.attempts);
    }
    QuietOneKey(s, u);
    forall n | 0 <= n < |Drafts(u)| ensures DraftOk(u, Drafts(u)[n]) { QuietDraft(s, u, Drafts(s)[n]); }
  }

  lemma EditKeeps(s: State, payload: string, files: bool)
    requires Inv(s) && CanChange(s)
    ensures Inv(Apply(s, Edit(payload, files)))
  {
    var was := s.form.value;
    var f := was.(payload := payload, files := files, held := None);
    var u := s.(form := Some(f));
    FormGoesOn(s, u, f);
    QuietKeeps(s, u, f.filling, f.pending);
    forall n | 0 <= n < |Drafts(u)| ensures Agrees(u, f, Drafts(u)[n]) { assert Agrees(s, was, Drafts(s)[n]); }
    SavingKeeps(u, f);
  }

  /** Files can't wait offline: the task is held, under its key. */
  lemma HoldKeeps(s: State, newKey: string)
    requires Inv(s) && Enabled(s, Submit(newKey, false)) && s.form.value.files
    ensures Inv(Apply(s, Submit(newKey, false)))
  {
    var was := s.form.value;
    var p := Keyed(KeyFor(was, newKey), was.payload);
    var f := was.(held := Some(p));
    var u := s.(form := Some(f));
    var t := Apply(s, Submit(newKey, false));
    FormGoesOn(s, u, f);
    assert Drafts(t) == Drafts(u) == Drafts(s);
    forall k ensures MayCreate(t, k) == MayCreate(u, k) { }
    QuietOneKey(u, t);
    QuietKeeps(s, t, f.filling, f.pending);
    forall n | 0 <= n < |Drafts(t)| ensures DraftOk(t, Drafts(t)[n]) && Agrees(t, f, Drafts(t)[n]) {
      QuietDraft(u, t, Drafts(u)[n]);
      assert Agrees(s, was, Drafts(s)[n]);
    }
  }

  lemma SendKeeps(s: State)
    requires Inv(s) && Enabled(s, Send)
    ensures Inv(Apply(s, Send))
  {
    var t, was := Apply(s, Send), s.form.value;
    var f := t.form.value;
    assert Drafts(t) == Drafts(s) == [s.draft] && s.draft == DraftOf(was);
    forall k ensures MayCreate(t, k) == MayCreate(s, k) { }
    QuietOneKey(s, t);
    QuietKeeps(s, t, f.filling, f.pending);
    assert DraftOk(s, Drafts(s)[0]);
    forall i | 0 <= i < |t.attempts| && t.attempts[i].key in t.asked && t.attempts[i].key !in t.refused ensures Keeps(t, was.filling, was.pending, i) {
      assert MayCreate(s, t.attempts[i].key);
    }
    assert DraftOk(t, s.draft);
  }

  lemma ReplyKeeps(s: State, answer: Answer)
    requires Inv(s) && Enabled(s, Reply(answer))
    ensures Inv(Apply(s, Reply(answer)))
  {
    var was := s.form.value;
    match answer
    case WasQueued => ResetKeeps(s);
    case GotTask =>
      var f := was.(pending := None, created := Some(was.pending.value.key), phase := Noting(was.phase.withFiles));
      FormGoesOn(s, s.(form := Some(f)), f);
      SavingKeeps(s.(form := Some(f)), f);
    case WasRefused =>
      var f := was.(pending := None, held := None, phase := Ready);
      RefusedForm(s, f);
      SavingKeeps(s.(form := Some(f)), f);
    case WasHeld => SettledForm(s, was.(held := was.pending, phase := Ready));
    case NotKnown => SettledForm(s, was.(phase := Ready));
  }

  lemma RefusedForm(s: State, f: Form)
    requires Inv(s) && Enabled(s, Reply(WasRefused)) && f == s.form.value.(pending := None, held := None, phase := Ready)
    ensures Base(s.(form := Some(f)))
  {
    var u, was := s.(form := Some(f)), s.form.value;
    FormGoesOn(s, u, f);
    forall i | 0 <= i < |u.attempts| && MayCreate(u, u.attempts[i].key) ensures Keeps(u, f.filling, f.pending, i) {
      assert Keeps(s, was.filling, was.pending, i);
    }
    forall n | 0 <= n < |Drafts(u)| ensures Agrees(u, f, Drafts(u)[n]) { assert Agrees(s, was, Drafts(s)[n]); }
  }

  /** The try is over, and may have reached the server: its key stays. */
  lemma SettledForm(s: State, f: Form)
    requires Inv(s) && s.form.Some? && s.form.value.phase.InFlight?
    requires f == s.form.value.(phase := Ready) || f == s.form.value.(held := s.form.value.pending, phase := Ready)
    ensures Inv(s.(form := Some(f)))
  {
    var u, was := s.(form := Some(f)), s.form.value;
    FormGoesOn(s, u, f);
    PendingKnown(s, was);
    QuietKeeps(s, u, f.filling, f.pending);
    forall n | 0 <= n < |Drafts(u)| ensures Agrees(u, f, Drafts(u)[n]) { assert Agrees(s, was, Drafts(s)[n]); }
  }

  lemma PendingKnown(s: State, f: Form)
    requires Known(s) && FormBase(s, f) && f.pending.Some?
    ensures f.pending.value.key in s.keys
  {
  }

  lemma UploadedKeeps(s: State, f: Form)
    requires Inv(s) && s.form.Some? && s.form.value.created.Some? && f == s.form.value.(phase := f.phase) && f.phase in {Ready, Uploading}
    ensures Inv(s.(form := Some(f)))
  {
    FormGoesOn(s, s.(form := Some(f)), f);
  }

  lemma ServerKeeps(s: State, t: State)
    requires Inv(s) && t == s.(created := t.created, refused := t.refused) && s.created <= t.created <= s.asked && s.refused <= t.refused <= s.asked
    requires t.created !! t.refused
    ensures Inv(t)
  {
    assert Drafts(t) == Drafts(s);
    forall k | MayCreate(t, k) ensures MayCreate(s, k) { }
    QuietOneKey(s, t);
    forall n | 0 <= n < |Drafts(t)| ensures DraftOk(t, Drafts(t)[n]) { QuietDraft(s, t, Drafts(s)[n]); }
    if s.form.Some? {
      var f := s.form.value;
      if f.created == None { QuietKeeps(s, t, f.filling, f.pending); }
      if f.created == None && !f.phase.Keeping? {
        forall n | 0 <= n < |Drafts(t)| ensures Agrees(t, f, Drafts(t)[n]) { assert Agrees(s, f, Drafts(s)[n]); }
      }
    }
  }

  // ---- A new try ----------------------------------------------------------------------------------

  /** The key a try of the form's task goes under. */
  predicate GoesUnder(s: State, f: Form, p: Keyed) {
    && p.payload == f.payload && f.payload != ""
    && (f.held.Some? ==> f.held == Some(p))
    && (f.held.None? ==> f.pending == Some(p) || (p.key !in s.keys && (f.pending.Some? ==> f.pending.value.payload != p.payload)))
  }

  /** The tries so far, seen from the new one. */
  lemma Earlier(s: State, f: Form, p: Keyed, withFiles: bool, i: nat)
    requires Inv(s) && CanChange(s) && f == s.form.value && GoesUnder(s, f, p) && i < |s.attempts|
    ensures var t := Trying(s, f, p, withFiles);
      && (MayCreate(t, t.attempts[i].key) ==> MayCreate(s, s.attempts[i].key))
      && (MayCreate(t, t.attempts[i].key) && SameTask(t.attempts, i, |s.attempts|) ==> t.attempts[i].key == p.key)
  {
    var t, key := Trying(s, f, p, withFiles), s.attempts[i].key;
    assert key in Tried(s.attempts);
    assert Drafts(t) == Drafts(s) + [DraftOf(t.form.value)];
    if MayCreate(t, key) {
      if InDrafts(t, key) && !InDrafts(s, key) {
        var n :| 0 <= n < |Drafts(t)| && InDraft(Drafts(t)[n], key);
      }
      assert MayCreate(s, key);
      assert Keeps(s, f.filling, f.pending, i);
      if SameTask(t.attempts, i, |s.attempts|) { SameBefore(s.attempts, t.attempts[|s.attempts|], i); }
    }
  }

  lemma SameBefore(attempts: seq<Attempt>, next: Attempt, i: nat)
    requires i < |attempts| && SameTask(attempts + [next], i, |attempts|)
    ensures SameSince(attempts, i, |attempts|) && next.filling == attempts[i].filling && next.payload == attempts[i].payload
  {
    var all := attempts + [next];
    assert all[|attempts|] == next && all[i] == attempts[i];
    forall m | i < m < |attempts| && attempts[m].filling == attempts[i].filling ensures attempts[m].payload == attempts[i].payload {
      assert all[m] == attempts[m];
    }
  }

  lemma TryOneKey(s: State, f: Form, p: Keyed, withFiles: bool)
    requires Inv(s) && CanChange(s) && f == s.form.value && GoesUnder(s, f, p)
    ensures OneKey(Trying(s, f, p, withFiles))
  {
    var t := Trying(s, f, p, withFiles);
    forall i, j | 0 <= i < j < |t.attempts| && SameTask(t.attempts, i, j) && MayCreate(t, t.attempts[i].key) && MayCreate(t, t.attempts[j].key)
      ensures t.attempts[i].key == t.attempts[j].key
    {
      Earlier(s, f, p, withFiles, i);
      if j < |s.attempts| {
        Earlier(s, f, p, withFiles, j);
        SameEarlier(s.attempts, t.attempts[|s.attempts|], i, j);
      }
    }
  }

  lemma SameEarlier(attempts: seq<Attempt>, next: Attempt, i: nat, j: nat)
    requires i < j < |attempts|
    ensures SameTask(attempts + [next], i, j) == SameTask(attempts, i, j)
  {
    var all := attempts + [next];
    assert forall m :: 0 <= m < |attempts| ==> all[m] == attempts[m];
  }

  /** What the form and each draft keep, seen after the new try. */
  lemma TryKeeps(s: State, f: Form, p: Keyed, withFiles: bool, filling: nat, kept: Option<Keyed>, i: nat)
    requires Inv(s) && CanChange(s) && f == s.form.value && GoesUnder(s, f, p) && i < |s.attempts| && Keeps(s, filling, kept, i)
    ensures Keeps(Trying(s, f, p, withFiles), filling, kept, i)
  {
    var t := Trying(s, f, p, withFiles);
    if t.attempts[i].filling == filling && SameSince(t.attempts, i, |t.attempts|) {
      forall m | i < m < |s.attempts| && s.attempts[m].filling == filling ensures s.attempts[m].payload == s.attempts[i].payload {
        assert t.attempts[m] == s.attempts[m];
      }
    }
  }

  lemma TryOwns(s: State, f: Form, p: Keyed, withFiles: bool, filling: nat, kept: Keyed)
    requires Inv(s) && CanChange(s) && f == s.form.value && GoesUnder(s, f, p) && Owns(s, filling, kept)
    ensures Owns(Trying(s, f, p, withFiles), filling, kept)
    ensures kept.key == p.key ==> f.pending == Some(p) && filling == f.filling && kept.payload == p.payload
  {
    var t := Trying(s, f, p, withFiles);
    var i :| 0 <= i < |s.attempts| && s.attempts[i].key == kept.key;
    assert t.attempts[i].key == kept.key;
  }

  lemma TryDraft(s: State, f: Form, p: Keyed, withFiles: bool, d: Draft)
    requires Inv(s) && CanChange(s) && f == s.form.value && GoesUnder(s, f, p) && DraftOk(s, d) && Agrees(s, f, d)
    ensures DraftOk(Trying(s, f, p, withFiles), d)
  {
    var t := Trying(s, f, p, withFiles);
    if d.Unsent? {
      if d.pending.Some? { TryOwns(s, f, p, withFiles, d.filling, d.pending.value); }
      forall i | 0 <= i < |t.attempts| && t.attempts[i].key in t.asked && t.attempts[i].key !in t.refused ensures Keeps(t, d.filling, d.pending, i) {
        if i < |s.attempts| {
          TryKeeps(s, f, p, withFiles, d.filling, d.pending, i);
        } else {
          assert p.key in s.asked;
          assert f.pending == Some(p);
        }
      }
    }
  }

  lemma TryForm(s: State, f: Form, p: Keyed, withFiles: bool)
    requires Inv(s) && CanChange(s) && f == s.form.value && GoesUnder(s, f, p)
    ensures var t := Trying(s, f, p, withFiles); FormOk(t, t.form.value)
  {
    var t := Trying(s, f, p, withFiles);
    assert t.attempts[|s.attempts|].key == p.key;
    TryOwnsNew(s, f, p, withFiles);
    forall i | 0 <= i < |t.attempts| && MayCreate(t, t.attempts[i].key) ensures Keeps(t, f.filling, Some(p), i) {
      if i < |s.attempts| {
        Earlier(s, f, p, withFiles, i);
        if t.attempts[i].filling == f.filling && SameSince(t.attempts, i, |t.attempts|) {
          assert t.attempts[|s.attempts|].payload == t.attempts[i].payload;
        }
      }
    }
    assert Drafts(t)[|t.writes|] == DraftOf(t.form.value);
  }

  lemma TryOwnsNew(s: State, f: Form, p: Keyed, withFiles: bool)
    requires Inv(s) && CanChange(s) && f == s.form.value && GoesUnder(s, f, p)
    ensures Owns(Trying(s, f, p, withFiles), f.filling, p)
  {
    var t := Trying(s, f, p, withFiles);
    assert t.attempts[|s.attempts|].key == p.key;
    forall i | 0 <= i < |t.attempts| && t.attempts[i].key == p.key ensures t.attempts[i].filling == f.filling && t.attempts[i].payload == p.payload {
      if i < |s.attempts| { assert s.attempts[i].key in Tried(s.attempts); }
    }
  }

  lemma TryInv(s: State, f: Form, p: Keyed, withFiles: bool)
    requires Inv(s) && CanChange(s) && f == s.form.value && GoesUnder(s, f, p)
    ensures Inv(Trying(s, f, p, withFiles))
  {
    var t := Trying(s, f, p, withFiles);
    TryOneKey(s, f, p, withFiles);
    TryForm(s, f, p, withFiles);
    TryKnown(s, f, p, withFiles);
    assert Drafts(t) == Drafts(s) + [DraftOf(t.form.value)];
    forall n | 0 <= n < |Drafts(t)| ensures DraftOk(t, Drafts(t)[n]) {
      if n < |Drafts(s)| {
        assert Agrees(s, f, Drafts(s)[n]);
        TryDraft(s, f, p, withFiles, Drafts(s)[n]);
      } else {
        OwnDraft(t, t.form.value);
      }
    }
  }

  lemma TryKnown(s: State, f: Form, p: Keyed, withFiles: bool)
    requires Inv(s) && CanChange(s) && f == s.form.value && GoesUnder(s, f, p)
    ensures Known(Trying(s, f, p, withFiles))
  {
    var t := Trying(s, f, p, withFiles);
    forall k | k in Tried(s.attempts) ensures k in Tried(t.attempts) {
      var i :| 0 <= i < |s.attempts| && s.attempts[i].key == k;
      assert t.attempts[i].key == k;
    }
    forall k | k in Tried(t.attempts) ensures k in t.keys {
      var i :| 0 <= i < |t.attempts| && t.attempts[i].key == k;
      if i < |s.attempts| { assert s.attempts[i].key in Tried(s.attempts); }
    }
  }

  // ---- Every run ----------------------------------------------------------------------------------

  lemma StepKeeps(s: State, step: Step)
    requires Inv(s) && Enabled(s, step)
    ensures Inv(Apply(s, step))
  {
    match step
    case Open => OpenKeeps(s);
    case Close => CloseKeeps(s);
    case WriteDraft => WriteKeeps(s);
    case Edit(payload, files) => EditKeeps(s, payload, files);
    case Submit(newKey, online) =>
      var f := s.form.value;
      if f.files && !online { HoldKeeps(s, newKey); } else { TryInv(s, f, Keyed(KeyFor(f, newKey), f.payload), f.files); }
    case SaveWithoutFiles => TryInv(s, s.form.value, s.form.value.held.value, false);
    case Send => SendKeeps(s);
    case Reply(answer) => ReplyKeeps(s, answer);
    case Noted => if s.form.value.phase.withFiles { UploadedKeeps(s, s.form.value.(phase := Uploading)); } else { ResetKeeps(s); }
    case Uploaded(all) => if all { ResetKeeps(s); } else { UploadedKeeps(s, s.form.value.(phase := Ready)); }
    case Done => ResetKeeps(s);
    case Clear => ResetKeeps(s);
    case Create(key) => ServerKeeps(s, Apply(s, step));
    case Refuse(key) => ServerKeeps(s, Apply(s, step));
  }

  lemma {:induction false} RunInvariant(run: seq<State>, i: nat)
    requires IsRun(run) && i < |run|
    ensures Inv(run[i])
  {
    if i > 0 {
      RunInvariant(run, i - 1);
      assert Follows(run[i - 1], run[i]);
      var step :| Goes(run[i - 1], step, run[i]);
      StepKeeps(run[i - 1], step);
    }
  }

  /** Tries of one task in one filling, with no other task tried between them, make at most one task, whenever the popup closed. */
  lemma OneTask(run: seq<State>, n: nat, i: nat, j: nat)
    requires IsRun(run) && n < |run| && i < j < |run[n].attempts| && SameTask(run[n].attempts, i, j)
    requires run[n].attempts[i].key in run[n].created && run[n].attempts[j].key in run[n].created
    ensures run[n].attempts[i].key == run[n].attempts[j].key
  {
    RunInvariant(run, n);
    var s := run[n];
    assert MayCreate(s, s.attempts[i].key) && MayCreate(s, s.attempts[j].key);
  }

  // ---- Once the task is noted ---------------------------------------------------------------------

  /** Nothing offers this filling again: no draft of it but its task, and no form of it without its task. */
  predicate Over(s: State, filling: nat) {
    && filling < s.fillings
    && (forall n :: 0 <= n < |Drafts(s)| ==> !IsUnsent(Drafts(s)[n], filling))
    && (s.form.Some? && s.form.value.filling == filling ==> s.form.value.created.Some?)
  }

  predicate IsUnsent(d: Draft, filling: nat) {
    d.Unsent? && d.filling == filling
  }

  predicate IsNoted(d: Draft, filling: nat) {
    d.TaskMade? && d.filling == filling
  }

  /** A filling's task is noted after everything else of it, by its own form. */
  ghost predicate NotedLast(s: State) {
    && (forall a, b, filling :: 0 <= a < b < |Drafts(s)| && IsNoted(Drafts(s)[a], filling) ==> !IsUnsent(Drafts(s)[b], filling))
    && (forall a, filling :: 0 <= a < |Drafts(s)| && IsNoted(Drafts(s)[a], filling) && s.form.Some? && s.form.value.filling == filling ==>
          s.form.value.created.Some?)
  }

  /** What a step adds to the drafts is its form's own. */
  lemma DraftsAfter(s: State, step: Step) returns (was: seq<Draft>, more: seq<Draft>)
    requires Inv(s) && Enabled(s, step)
    ensures Drafts(Apply(s, step)) == was + more && |more| <= 1
    ensures was == (if step.Close? then [s.draft] else if step.WriteDraft? then s.writes else Drafts(s))
    ensures more != [] ==> Apply(s, step).form.Some? && more[0] == DraftOf(Apply(s, step).form.value)
  {
    var t := Apply(s, step);
    was := if step.Close? then [s.draft] else if step.WriteDraft? then s.writes else Drafts(s);
    more := Drafts(t)[|was|..];
  }

  /** The form after a step: none, a new filling's, the one kept in the draft, or the same filling's, its task kept. */
  lemma FormAfter(s: State, step: Step)
    requires Inv(s) && Enabled(s, step) && Apply(s, step).form.Some?
    ensures var f := Apply(s, step).form.value;
      || f.filling >= s.fillings
      || (step.Open? && IsUnsent(s.draft, f.filling))
      || (s.form.Some? && f.filling == s.form.value.filling && (s.form.value.created.Some? ==> f.created.Some?))
    ensures s.fillings <= Apply(s, step).fillings
  {
  }

  /** A draft that was there before the step, at its place then; or the form's own, written by the step. */
  lemma DraftBefore(s: State, step: Step, n: nat) returns (old_: nat)
    requires Inv(s) && Enabled(s, step) && n < |Drafts(Apply(s, step))|
    ensures old_ >= n
    ensures old_ < |Drafts(s)| ==> Drafts(Apply(s, step))[n] == Drafts(s)[old_] && DraftOk(s, Drafts(s)[old_])
    ensures old_ >= |Drafts(s)| ==>
      n == |Drafts(Apply(s, step))| - 1 && Apply(s, step).form.Some? && Drafts(Apply(s, step))[n] == DraftOf(Apply(s, step).form.value)
    ensures old_ == n + (if step.WriteDraft? then 1 else 0)
  {
    var was, more := DraftsAfter(s, step);
    old_ := n + (if step.WriteDraft? then 1 else 0);
    if n < |was| { assert (was + more)[n] == was[n]; }
  }

  lemma NotedForm(s: State, step: Step, a: nat, filling: nat)
    requires Inv(s) && Enabled(s, step) && NotedLast(s)
    requires a < |Drafts(Apply(s, step))| && IsNoted(Drafts(Apply(s, step))[a], filling)
    requires Apply(s, step).form.Some? && Apply(s, step).form.value.filling == filling
    ensures Apply(s, step).form.value.created.Some?
  {
    var n := DraftBefore(s, step, a);
    if n < |Drafts(s)| {
      assert IsNoted(Drafts(s)[n], filling);
      FormAfter(s, step);
      assert s.draft == Drafts(s)[0];
      if step.Open? && IsUnsent(s.draft, filling) {
        assert false;
      }
    }
  }

  lemma NotedPair(s: State, step: Step, a: nat, b: nat, filling: nat)
    requires Inv(s) && Enabled(s, step) && NotedLast(s)
    requires a < b < |Drafts(Apply(s, step))| && IsNoted(Drafts(Apply(s, step))[a], filling)
    ensures !IsUnsent(Drafts(Apply(s, step))[b], filling)
  {
    var m := DraftBefore(s, step, a);
    var n := DraftBefore(s, step, b);
    assert m < |Drafts(s)| && IsNoted(Drafts(s)[m], filling);
    if n >= |Drafts(s)| && IsUnsent(Drafts(Apply(s, step))[b], filling) {
      NotedForm(s, step, a, filling);
    }
  }

  lemma NotedStep(s: State, step: Step)
    requires Inv(s) && Enabled(s, step) && NotedLast(s)
    ensures NotedLast(Apply(s, step))
  {
    var t := Apply(s, step);
    forall a, filling | 0 <= a < |Drafts(t)| && IsNoted(Drafts(t)[a], filling) && t.form.Some? && t.form.value.filling == filling
      ensures t.form.value.created.Some?
    {
      NotedForm(s, step, a, filling);
    }
    forall a, b, filling | 0 <= a < b < |Drafts(t)| && IsNoted(Drafts(t)[a], filling) ensures !IsUnsent(Drafts(t)[b], filling) {
      NotedPair(s, step, a, b, filling);
    }
  }

  lemma OverStep(s: State, step: Step, filling: nat)
    requires Inv(s) && Enabled(s, step) && Over(s, filling)
    ensures Over(Apply(s, step), filling)
    ensures s.attempts <= Apply(s, step).attempts
    ensures forall i :: |s.attempts| <= i < |Apply(s, step).attempts| ==> Apply(s, step).attempts[i].filling != filling
  {
    OverForm(s, step, filling);
    var t := Apply(s, step);
    forall n | 0 <= n < |Drafts(t)| ensures !IsUnsent(Drafts(t)[n], filling) {
      var m := DraftBefore(s, step, n);
      if m < |Drafts(s)| { assert !IsUnsent(Drafts(s)[m], filling); }
    }
  }

  lemma OverForm(s: State, step: Step, filling: nat)
    requires Inv(s) && Enabled(s, step) && Over(s, filling)
    ensures var t := Apply(s, step);
      && s.fillings <= t.fillings && (t.form.Some? && t.form.value.filling == filling ==> t.form.value.created.Some?)
  {
    if Apply(s, step).form.Some? { FormAfter(s, step); }
    assert !IsUnsent(Drafts(s)[0], filling);
  }

  lemma {:induction false} NotedRun(run: seq<State>, i: nat)
    requires IsRun(run) && i < |run|
    ensures NotedLast(run[i])
  {
    if i > 0 {
      NotedRun(run, i - 1);
      RunInvariant(run, i - 1);
      assert Follows(run[i - 1], run[i]);
      var step :| Goes(run[i - 1], step, run[i]);
      NotedStep(run[i - 1], step);
    }
  }

  lemma NotedIsOver(run: seq<State>, i: nat)
    requires IsRun(run) && i < |run| && run[i].draft.TaskMade?
    ensures run[i].draft.key in run[i].created && Over(run[i], run[i].draft.filling)
  {
    RunInvariant(run, i);
    NotedRun(run, i);
    assert run[i].draft == Drafts(run[i])[0] && DraftOk(run[i], Drafts(run[i])[0]);
    assert IsNoted(Drafts(run[i])[0], run[i].draft.filling);
  }

  lemma OverNext(run: seq<State>, j: nat, filling: nat) returns (more: seq<Attempt>)
    requires IsRun(run) && j + 1 < |run| && Over(run[j], filling)
    ensures Over(run[j + 1], filling) && run[j + 1].attempts == run[j].attempts + more
    ensures forall n :: 0 <= n < |more| ==> more[n].filling != filling
  {
    RunInvariant(run, j);
    assert run[j + 1 - 1] == run[j] && Follows(run[j + 1 - 1], run[j + 1]);
    var step :| Goes(run[j], step, run[j + 1]);
    OverStep(run[j], step, filling);
    more := run[j + 1].attempts[|run[j].attempts|..];
  }

  /** Once the draft notes a filling's task, which the server made, nothing of that filling is ever tried again. */
  lemma {:induction false} NeverOfferedAgain(run: seq<State>, i: nat, j: nat) returns (later: seq<Attempt>)
    requires IsRun(run) && i <= j < |run| && run[i].draft.TaskMade?
    ensures run[i].draft.key in run[i].created && Over(run[j], run[i].draft.filling)
    ensures run[j].attempts == run[i].attempts + later
    ensures forall n :: 0 <= n < |later| ==> later[n].filling != run[i].draft.filling
    decreases j
  {
    later := [];
    NotedIsOver(run, i);
    if i < j {
      var before := NeverOfferedAgain(run, i, j - 1);
      var more := OverNext(run, j - 1, run[i].draft.filling);
      later := before + more;
      Lists.GrownTwice(run[i].attempts, run[j - 1].attempts, run[j].attempts, before, more);
    }
  }

  // ---- Another task in between --------------------------------------------------------------------

  function FormLeads(s: State, steps: seq<Step>): Option<State>
    decreases |steps|
  {
    if steps == [] then Some(s) else if Enabled(s, steps[0]) then FormLeads(Apply(s, steps[0]), steps[1..]) else None
  }

  lemma FormLeadsBoth(s: State, a: seq<Step>, b: seq<Step>)
    requires FormLeads(s, a).Some?
    ensures FormLeads(s, a + b) == FormLeads(FormLeads(s, a).value, b)
    decreases |a|
  {
    if a == [] {
      assert a + b == b;
    } else {
      assert (a + b)[0] == a[0] && (a + b)[1..] == a[1..] + b;
      FormLeadsBoth(Apply(s, a[0]), a[1..], b);
    }
  }

  function TryKept(payload: string, newKey: string): seq<Step> {
    [Edit(payload, false), Submit(newKey, true), WriteDraft, WriteDraft]
  }

  const NO_ANSWER: seq<Step> := [Send, Reply(NotKnown)]

  /** One try of a task that gets no answer, in a form at rest. */
  function TryWithoutAnswer(payload: string, newKey: string): seq<Step> {
    TryKept(payload, newKey) + NO_ANSWER
  }

  /** The form with nothing under way, whose last try was of this task under this key. */
  predicate TriedLast(s: State, f: Form, p: Keyed, phase: Phase) {
    s.form == Some(Form(f.filling, p.payload, false, Some(p), None, None, phase)) && s.writes == []
  }

  lemma Kept(s: State, f: Form, payload: string, newKey: string) returns (t: State)
    requires CanChange(s) && s.form == Some(f) && s.writes == [] && payload != "" && newKey !in s.keys
    requires f.pending.Some? ==> f.pending.value.payload != payload
    ensures FormLeads(s, TryKept(payload, newKey)) == Some(t) && TriedLast(t, f, Keyed(newKey, payload), Keeping(false))
    ensures t.keys == s.keys + {newKey} && t.asked == s.asked && t.created == s.created && t.refused == s.refused
  {
    var steps := TryKept(payload, newKey);
    var s1 := Apply(s, steps[0]);
    var s2 := Apply(s1, steps[1]);
    var s3 := Apply(s2, WriteDraft);
    t := Apply(s3, WriteDraft);
    assert FormLeads(s3, [WriteDraft]) == FormLeads(t, []);
    assert FormLeads(s2, [WriteDraft, WriteDraft]) == FormLeads(s3, [WriteDraft]);
    assert FormLeads(s1, [steps[1], WriteDraft, WriteDraft]) == FormLeads(s2, [WriteDraft, WriteDraft]);
    assert steps[1..] == [steps[1], WriteDraft, WriteDraft];
  }

  lemma OneTry(s: State, f: Form, payload: string, newKey: string) returns (t: State)
    requires CanChange(s) && s.form == Some(f) && s.writes == [] && payload != "" && newKey !in s.keys
    requires f.pending.Some? ==> f.pending.value.payload != payload
    ensures FormLeads(s, TryWithoutAnswer(payload, newKey)) == Some(t) && TriedLast(t, f, Keyed(newKey, payload), Ready)
    ensures t.keys == s.keys + {newKey} && t.asked == s.asked + {newKey} && t.created == s.created && t.refused == s.refused
  {
    var kept := Kept(s, f, payload, newKey);
    FormLeadsBoth(s, TryKept(payload, newKey), NO_ANSWER);
    var sent := Apply(kept, Send);
    t := Apply(sent, Reply(NotKnown));
    assert FormLeads(sent, [Reply(NotKnown)]) == FormLeads(t, []);
  }

  /**
    * "No other task tried between them" is needed: the form keeps one key, the last try's. A task tried
    * without an answer, another one, and the first again: two keys, and the server may make both.
    */
  lemma AnotherBetween(s: State, a: string, b: string, key1: string, key2: string, key3: string) returns (steps: seq<Step>)
    requires CanChange(s) && s.writes == [] && s.form.value.pending == None && a != "" && b != "" && a != b
    requires key1 !in s.keys && key2 !in s.keys && key3 !in s.keys && key1 != key2 && key1 != key3 && key2 != key3
    requires s.refused <= s.keys
    ensures steps == TryWithoutAnswer(a, key1) + TryWithoutAnswer(b, key2) + TryWithoutAnswer(a, key3) + [Create(key1), Create(key3)]
    ensures FormLeads(s, steps).Some? && {key1, key3} <= FormLeads(s, steps).value.created
  {
    var f := s.form.value;
    var one, two, three, last := TryWithoutAnswer(a, key1), TryWithoutAnswer(b, key2), TryWithoutAnswer(a, key3), [Create(key1), Create(key3)];
    steps := one + two + three + last;
    var t1 := OneTry(s, f, a, key1);
    var t2 := OneTry(t1, t1.form.value, b, key2);
    var t3 := OneTry(t2, t2.form.value, a, key3);
    var t4 := Apply(t3, Create(key1));
    assert FormLeads(t4, [Create(key3)]) == FormLeads(Apply(t4, Create(key3)), []);
    FormLeadsBoth(s, one, two);
    FormLeadsBoth(s, one + two, three);
    FormLeadsBoth(s, one + two + three, last);
  }
}
