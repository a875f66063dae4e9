/**
  * The queue, its senders and the server as one state machine: every tab, the popup and the service
  * worker take these steps in any order (Extension/src/queue.js).
  *
  * A step is one atomic write or message. A send and the queue write that follows its answer are
  * separate steps, so changes can be queued, retried or discarded while a request is on its way.
  * Requests stay in the network for good: the server may take one late, or more than once.
  */
module Protocol {
  import opened Lists
  import opened Edits
  import opened Changes
  import opened QueueWrites

  /** Who made a version of a task. */
  datatype Author = Elsewhere | LiveSend(key: string) | Replay(user: string, itemId: string)

  /** What the server keeps for an Idempotency-Key. */
  datatype Verdict = Done | Refused

  /** A request as it was sent: a change sent now has no item id. */
  datatype Request = Request(key: string, origin: string, user: string, change: Change, itemId: Option<string>)

  /** A change being sent now by `sendOrQueue`, and the ids queued when it was made. */
  datatype Live = Live(user: string, change: Change, ahead: set<string>)

  /** The one flush that holds the flush lock. */
  datatype Flush = Flush(user: string, tried: set<string>, current: Option<Item>)

  /** The logical change a key stands for: the key it was made with, its sort, and a chat message's own client id. */
  datatype Owner = Owner(origin: string, post: bool, client: Option<string>)

  /**
    * The server: the authors of each task's versions (a task's version is their number), its stored
    * answers, the POST changes applied, in order, the chat messages stored by client id, every success
    * it answered, with the version made, and the edits it refused for their version.
    */
  datatype Server = Server(
    versions: map<string, seq<Author>>,
    answers: map<string, Verdict>,
    posts: seq<Owner>,
    messages: set<string>,
    replies: set<(Request, Option<int>)>,
    conflicts: set<Request>)

  /** What has happened to the queued changes, by id. */
  datatype History = History(
    enqueued: set<string>,
    synced: set<string>,
    discarded: set<string>,
    cleared: set<string>,
    keys: map<string, Owner>,             // every key used, and the change it stands for
    ahead: map<string, set<string>>,      // queued when the change was
    waits: map<string, set<string>>,      // to be followed when the change was made, and not settled since
    stamp: map<string, Option<int>>,      // the version an edit expected when it was queued
    madeAt: map<string, Option<int>>,     // and the one it was made at, before it was raised to that
    over: set<(string, Change)>,          // an older change of the same thing, and the one that went over it
    found: set<(string, int)>)            // versions a conflict check found to hold an own edit

  datatype State = State(
    queue: Queue,
    live: map<string, Live>,
    flush: Option<Flush>,
    net: set<Request>,
    server: Server,
    hist: History)

  datatype Step =
    // sendOrQueue
    | SendNow(user: string, change: Change, key: string)
    | QueueBehind(user: string, change: Change, key: string, id: string)
    | SentOk(key: string, made: Option<int>)
    | SentKept(key: string, id: string)
    | SentRefused(key: string)
    | TabClosed(key: string)
    // flushQueue
    | StartFlush(user: string)
    | Pick
    | ReplayOk(made: Option<int>)
    | ReplayHeld(made: Option<int>)
    | ReplayFailed(status: Option<int>, outcome: Outcome)
    | EndFlush
    | WorkerStopped
    // Settings
    | RetryItem(id: string, freshKey: string)
    | Discard(id: string)
    | Clear
    // the server
    | Accept(request: Request)
    | Refuse(request: Request)
    | Conflict(request: Request)
    | WriteElsewhere(task: string)

  function Init(): State {
    State([], map[], None, {}, Server(map[], map[], [], {}, {}, {}),
          History({}, {}, {}, {}, map[], map[], map[], map[], map[], {}, {}))
  }

  function Ids(q: Queue): set<string> {
    set x | x in q :: x.id
  }

  function VersionOf(s: State, task: string): int {
    if task in s.server.versions then |s.server.versions[task]| else 0
  }

  function RequestOf(item: Item): Request {
    Request(item.idempotencyKey, Origin(item), item.userId, item.change, Some(item.id))
  }

  function LiveRequest(key: string, l: Live): Request {
    Request(key, key, l.user, l.change, None)
  }

  function WaitsOn(q: Queue, user: string, change: Change): set<string> {
    set x | x in q && WaitsFor(user, change, x) :: x.id
  }

  function CurrentItem(s: State): Option<Item> {
    if s.flush.Some? then s.flush.value.current else None
  }

  predicate IsRefused(answers: map<string, Verdict>, key: string) {
    key in answers && answers[key] == Refused
  }

  function OwnerOf(origin: string, change: Change): Owner {
    Owner(origin, IsPost(change), if change.ChatSend? then change.clientId else None)
  }

  /** The client id a chat message carries: its own, or its key's. */
  function ClientId(r: Request): string
    requires r.change.ChatSend?
  {
    if r.change.clientId.Some? then r.change.clientId.value else r.key
  }

  /** When each step can be taken. New ids and keys are random, so they are new. */
  predicate Enabled(s: State, step: Step) {
    match step
    case SendNow(user, change, key) =>
      user != "" && key !in s.hist.keys && (IsOrdered(change) ==> WaitingWrites(s.queue, user, change) == [])
    case QueueBehind(user, change, key, id) =>
      && user != "" && key !in s.hist.keys && id !in s.hist.enqueued
      && IsOrdered(change) && WaitingWrites(s.queue, user, change) != []
    case SentOk(key, made) => key in s.live && (LiveRequest(key, s.live[key]), made) in s.server.replies
    case SentKept(key, id) => key in s.live && id !in s.hist.enqueued
    case SentRefused(key) => key in s.live
    case TabClosed(key) => key in s.live
    case StartFlush(user) => user != "" && s.flush.None?
    case Pick =>
      s.flush.Some? && s.flush.value.current.None? && NextPick(s.queue, s.flush.value.user, s.flush.value.tried) < |s.queue|
    case ReplayOk(made) => CurrentItem(s).Some? && (RequestOf(CurrentItem(s).value), made) in s.server.replies
    case ReplayHeld(made) =>
      && CurrentItem(s).Some? && CurrentItem(s).value.change.TaskUpdate?
      && RequestOf(CurrentItem(s).value) in s.server.conflicts
      && made.Some? && 0 < made.value <= VersionOf(s, CurrentItem(s).value.change.id)
    case ReplayFailed(status, outcome) =>
      && CurrentItem(s).Some?
      && (match status
          case None => outcome != Fail
          case Some(code) =>
            || outcome == OutcomeForStatus(code, true)
            || outcome == OutcomeForStatus(code, false)
            || (CurrentItem(s).value.change.TaskUpdate? && outcome == Outcome.Retry))
    case EndFlush =>
      s.flush.Some? && s.flush.value.current.None? && NextPick(s.queue, s.flush.value.user, s.flush.value.tried) == |s.queue|
    case WorkerStopped => s.flush.Some?
    case RetryItem(id, freshKey) => freshKey !in s.hist.keys
    case Discard(id) => true
    case Clear => true
    case Accept(r) =>
      && r in s.net
      && (IsPost(r.change) && r.key in s.server.answers ==> s.server.answers[r.key] == Done)
      && !IsStale(s, r)
    case Refuse(r) => r in s.net && (IsPost(r.change) && r.key in s.server.answers ==> s.server.answers[r.key] == Refused)
    case Conflict(r) => r in s.net && IsStale(s, r)
    case WriteElsewhere(task) => true
  }

  /** An edit made against another version than the task's own now. */
  predicate IsStale(s: State, r: Request) {
    r.change.TaskUpdate? && r.change.expectedVersion.Some? && r.change.expectedVersion.value != VersionOf(s, r.change.id)
  }

  // ---- The queue after each step ----------------------------------------------------------------

  function QueueAfter(s: State, step: Step): Queue
    requires Enabled(s, step)
  {
    match step
    case QueueBehind(user, change, key, id) =>
      s.queue + [NewItem(id, Behind(WaitingWrites(s.queue, user, change), change), user, key)]
    case SentKept(key, id) => s.queue + [NewItem(id, s.live[key].change, s.live[key].user, key)]
    case SentOk(key, _) =>
      if IsOrdered(s.live[key].change) then SupersedeOlder(s.queue, None, s.live[key].user, s.live[key].change) else s.queue
    case ReplayOk(made) => AfterSuccess(s.queue, CurrentItem(s).value, made)
    case ReplayHeld(made) => AfterSuccess(s.queue, CurrentItem(s).value, made)
    case ReplayFailed(status, outcome) =>
      if outcome == Pause then s.queue
      else AfterFailure(s.queue, CurrentItem(s).value.id, status, outcome == Fail, MAX_ATTEMPTS)
    case RetryItem(id, freshKey) => AfterRetry(s.queue, id, freshKey)
    case Discard(id) => Without(s.queue, id)
    case Clear => []
    case _ => s.queue
  }

  /** Whether a failed try marks the item in flight failed: refused for good, or tried often enough. */
  predicate GivesUp(s: State, outcome: Outcome)
    requires CurrentItem(s).Some?
  {
    var id := CurrentItem(s).value.id;
    outcome == Fail
    || (outcome != Pause && Holds(s.queue, id) && s.queue[IndexOf(s.queue, id)].attempts + 1 >= MAX_ATTEMPTS)
  }

  function FlushAfter(s: State, step: Step): Option<Flush>
    requires Enabled(s, step)
  {
    match step
    case StartFlush(user) => Some(Flush(user, {}, None))
    case Pick =>
      var f := s.flush.value;
      var item := s.queue[NextPick(s.queue, f.user, f.tried)];
      Some(Flush(f.user, f.tried + {item.id}, Some(item)))
    case ReplayOk(_) => Some(s.flush.value.(current := None))
    case ReplayHeld(_) => Some(s.flush.value.(current := None))
    case ReplayFailed(_, outcome) => if GivesUp(s, outcome) then Some(s.flush.value.(current := None)) else None
    case EndFlush => None
    case WorkerStopped => None
    case _ => s.flush
  }

  function LiveAfter(s: State, step: Step): map<string, Live>
    requires Enabled(s, step)
  {
    match step
    case SendNow(user, change, key) => s.live[key := Live(user, change, Ids(s.queue))]
    case SentOk(key, _) => s.live - {key}
    case SentKept(key, _) => s.live - {key}
    case SentRefused(key) => s.live - {key}
    case TabClosed(key) => s.live - {key}
    case _ => s.live
  }

  function NetAfter(s: State, step: Step): set<Request>
    requires Enabled(s, step)
  {
    match step
    case SendNow(user, change, key) => s.net + {LiveRequest(key, Live(user, change, {}))}
    case Pick => s.net + {RequestOf(s.queue[NextPick(s.queue, s.flush.value.user, s.flush.value.tried)])}
    case _ => s.net
  }

  // ---- The server after each step ---------------------------------------------------------------

  function AuthorOf(r: Request): Author {
    match r.itemId
    case Some(id) => Replay(r.user, id)
    case None => LiveSend(r.key)
  }

  function NewVersion(server: Server, task: string, author: Author): Server {
    server.(versions := server.versions[task := (if task in server.versions then server.versions[task] else []) + [author]])
  }

  /** A POST under a key answered already only gets that answer; a chat message stored already is not stored again. */
  function AcceptPost(server: Server, r: Request): Server
    requires IsPost(r.change)
  {
    var answered := server.(replies := server.replies + {(r, None)});
    if r.key in server.answers then answered
    else
      var kept := answered.(answers := server.answers[r.key := Done]);
      if r.change.ChatSend? && ClientId(r) in server.messages then kept
      else kept.(posts := server.posts + [OwnerOf(r.origin, r.change)],
                 messages := if r.change.ChatSend? then server.messages + {ClientId(r)} else server.messages)
  }

  function ServerAfter(s: State, step: Step): Server
    requires Enabled(s, step)
  {
    match step
    case Accept(r) =>
      if IsPost(r.change) then AcceptPost(s.server, r)
      else if IsVersioned(r.change) then
        var server := NewVersion(s.server, r.change.id, AuthorOf(r));
        server.(replies := server.replies + {(r, Some(|server.versions[r.change.id]|))})
      else s.server.(replies := s.server.replies + {(r, None)})
    case Refuse(r) => if IsPost(r.change) then s.server.(answers := s.server.answers[r.key := Refused]) else s.server
    case Conflict(r) => s.server.(conflicts := s.server.conflicts + {r})
    case WriteElsewhere(task) => NewVersion(s.server, task, Elsewhere)
    case _ => s.server
  }

  // ---- The history after each step --------------------------------------------------------------

  function Queued(s: State, id: string, made: Change, change: Change, waits: set<string>): History {
    s.hist.(enqueued := s.hist.enqueued + {id},
            ahead := s.hist.ahead[id := Ids(s.queue)],
            waits := s.hist.waits[id := waits],
            stamp := s.hist.stamp[id := ExpectedVersion(change)],
            madeAt := s.hist.madeAt[id := ExpectedVersion(made)])
  }

  /** The older changes of the same thing that `done` has now gone over. */
  function Over(q: Queue, user: string, done: Change, ahead: set<string>): set<(string, Change)> {
    set x | x in q && x.userId == user && x.id in ahead && MustFollow(done, x.change) :: (x.id, done)
  }

  function Synced(s: State): History
    requires CurrentItem(s).Some?
  {
    var item := CurrentItem(s).value;
    s.hist.(synced := if Holds(s.queue, item.id) then s.hist.synced + {item.id} else s.hist.synced,
            over := s.hist.over + Over(s.queue, item.userId, item.change,
                                       if item.id in s.hist.ahead then s.hist.ahead[item.id] else {}))
  }

  /** Retry gives this item a new key. */
  predicate Renews(item: Item) {
    !item.superseded && WasRefused(item)
  }

  function Recorded(s: State, step: Step): History
    requires Enabled(s, step)
  {
    match step
    case SendNow(user, change, key) => s.hist.(keys := s.hist.keys[key := OwnerOf(key, change)])
    case QueueBehind(user, change, key, id) =>
      Queued(s, id, change, Behind(WaitingWrites(s.queue, user, change), change), WaitsOn(s.queue, user, change))
        .(keys := s.hist.keys[key := OwnerOf(key, change)])
    case SentKept(key, id) => Queued(s, id, s.live[key].change, s.live[key].change, {})
    case SentOk(key, _) =>
      s.hist.(over := s.hist.over + Over(s.queue, s.live[key].user, s.live[key].change, s.live[key].ahead))
    case ReplayOk(_) => Synced(s)
    case ReplayHeld(made) => Synced(s).(found := s.hist.found + {(CurrentItem(s).value.change.id, made.value)})
    case RetryItem(id, freshKey) =>
      if Holds(s.queue, id) && Renews(s.queue[IndexOf(s.queue, id)]) then
        var item := s.queue[IndexOf(s.queue, id)];
        s.hist.(keys := s.hist.keys[freshKey := OwnerOf(Origin(item), item.change)])
      else s.hist
    case Discard(id) => if Holds(s.queue, id) then s.hist.(discarded := s.hist.discarded + {id}) else s.hist
    case Clear => s.hist.(cleared := s.hist.cleared + Ids(s.queue))
    case _ => s.hist
  }

  /** The queued changes a step settles: synced, discarded, cleared, or marked failed. */
  function Settles(s: State, step: Step): set<string>
    requires Enabled(s, step)
  {
    match step
    case ReplayOk(_) => {CurrentItem(s).value.id}
    case ReplayHeld(_) => {CurrentItem(s).value.id}
    case ReplayFailed(status, outcome) => if GivesUp(s, outcome) then {CurrentItem(s).value.id} else {}
    case Discard(id) => {id}
    case Clear => Ids(s.queue)
    case _ => {}
  }

  function Unwaited(waits: map<string, set<string>>, settled: set<string>): map<string, set<string>> {
    if settled == {} then waits else map id | id in waits :: waits[id] - settled
  }

  function HistoryAfter(s: State, step: Step): History
    requires Enabled(s, step)
  {
    var h := Recorded(s, step);
    h.(waits := Unwaited(h.waits, Settles(s, step)))
  }

  function Apply(s: State, step: Step): State
    requires Enabled(s, step)
  {
    State(QueueAfter(s, step), LiveAfter(s, step), FlushAfter(s, step), NetAfter(s, step), ServerAfter(s, step), HistoryAfter(s, step))
  }

  /** Where a run of steps leads from the start; nowhere when some step was not enabled. */
  function Run(steps: seq<Step>): Option<State> {
    if steps == [] then Some(Init())
    else match Run(steps[..|steps| - 1])
      case None => None
      case Some(s) => if Enabled(s, steps[|steps| - 1]) then Some(Apply(s, steps[|steps| - 1])) else None
  }

  lemma RunSnoc(steps: seq<Step>, step: Step)
    requires Run(steps).Some? && Enabled(Run(steps).value, step)
    ensures Run(steps + [step]) == Some(Apply(Run(steps).value, step))
  {
    assert (steps + [step])[..|steps|] == steps;
  }

  predicate OneStep(s: State, step: Step, t: State) {
    Enabled(s, step) && t == Apply(s, step)
  }

  /** A run with every state it goes through. */
  ghost predicate IsTrace(states: seq<State>, steps: seq<Step>) {
    && |states| == |steps| + 1
    && states[0] == Init()
    && forall n :: 0 <= n < |steps| ==> OneStep(states[n], steps[n], states[n + 1])
  }

  /** Every run has its trace. */
  lemma {:induction false} TraceOf(steps: seq<Step>) returns (states: seq<State>)
    requires Run(steps).Some?
    ensures IsTrace(states, steps) && states[|steps|] == Run(steps).value
  {
    if steps == [] {
      states := [Init()];
    } else {
      var init := steps[..|steps| - 1];
      states := TraceOf(init);
      states := states + [Run(steps).value];
      assert forall n :: 0 <= n < |init| ==> steps[n] == init[n];
    }
  }
}
