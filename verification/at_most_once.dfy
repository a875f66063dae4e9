/** A POST change is applied at most once, however its tries end: its key is kept, or renewed only after a refusal. */
module AtMostOnce {
  import opened Lists
  import opened Edits
  import opened Changes
  import opened QueueWrites
  import opened Protocol
  import opened StepItems

  type Keys = map<string, Owner>
  type Answers = map<string, Verdict>

  // ---- Who owns a key: true of every run --------------------------------------------------------

  predicate Owned(keys: Keys, key: string, origin: string, change: Change) {
    key in keys && keys[key] == OwnerOf(origin, change) && origin in keys
  }

  ghost predicate InvOwners(s: State) {
    && (forall x :: x in s.queue ==> Owned(s.hist.keys, x.idempotencyKey, Origin(x), x.change))
    && (forall k :: k in s.live ==> Owned(s.hist.keys, k, k, s.live[k].change))
    && (forall r :: r in s.net ==> Owned(s.hist.keys, r.key, r.origin, r.change))
    && (forall k :: k in s.server.answers ==> k in s.hist.keys)
    && KeyTable(s.hist.keys)
  }

  /** The key a step brings into use, with its owner. */
  function NewKey(s: State, step: Step): Option<(string, Owner)>
    requires Enabled(s, step)
  {
    match step
    case SendNow(_, change, key) => Some((key, OwnerOf(key, change)))
    case QueueBehind(_, change, key, _) => Some((key, OwnerOf(key, change)))
    case RetryItem(id, freshKey) =>
      if Holds(s.queue, id) && Renews(s.queue[IndexOf(s.queue, id)]) then
        Some((freshKey, OwnerOf(Origin(s.queue[IndexOf(s.queue, id)]), s.queue[IndexOf(s.queue, id)].change)))
      else None
    case _ => None
  }

  lemma KeysAfter(s: State, step: Step)
    requires Enabled(s, step)
    ensures HistoryAfter(s, step).keys == match NewKey(s, step) case None => s.hist.keys case Some((k, o)) => s.hist.keys[k := o]
    ensures NewKey(s, step).Some? ==> NewKey(s, step).value.0 !in s.hist.keys
  {
  }

  lemma KinOwner(a: Item, b: Item)
    requires Kin(a, b)
    ensures OwnerOf(Origin(a), a.change) == OwnerOf(Origin(b), b.change)
  {
  }

  /** A queued item keeps its key, or a Retry renews it. */
  lemma MovedKey(s: State, step: Step, x: Item)
    requires InvIds(s) && Enabled(s, step) && x in s.queue
    ensures var y := Moved(s, step, x);
      y.idempotencyKey == (if step.RetryItem? && x.id == step.id && Renews(x) then step.freshKey else x.idempotencyKey)
    ensures step.RetryItem? && x.id == step.id ==> Holds(s.queue, x.id) && s.queue[IndexOf(s.queue, x.id)] == x
  {
    MemberHolds(s.queue, x);
    match step
    case SentOk(key, _) => SupersedeShape(s.live[key].user, s.live[key].change, x);
    case ReplayOk(made) => SettledShape(s.queue, CurrentItem(s).value, made, x);
    case ReplayHeld(made) => SettledShape(s.queue, CurrentItem(s).value, made, x);
    case _ =>
  }

  lemma MovedOwner(s: State, step: Step, x: Item)
    requires Enabled(s, step)
    ensures OwnerOf(Origin(Moved(s, step, x)), Moved(s, step, x).change) == OwnerOf(Origin(x), x.change)
  {
    MovedKin(s, step, x);
    KinOwner(Moved(s, step, x), x);
  }

  /** Ownership survives new keys. */
  lemma OwnedGrows(keys: Keys, keys': Keys, key: string, origin: string, change: Change)
    requires Owned(keys, key, origin, change)
    requires forall k :: k in keys ==> k in keys' && keys'[k] == keys[k]
    ensures Owned(keys', key, origin, change)
  {
  }

  lemma KeysGrow(s: State, step: Step)
    requires Enabled(s, step)
    ensures forall k :: k in s.hist.keys ==> k in HistoryAfter(s, step).keys && HistoryAfter(s, step).keys[k] == s.hist.keys[k]
  {
    KeysAfter(s, step);
  }

  lemma AddedOwned(s: State, step: Step)
    requires InvOwners(s) && Enabled(s, step) && Added(s, step).Some?
    ensures var y := Added(s, step).value; Owned(HistoryAfter(s, step).keys, y.idempotencyKey, Origin(y), y.change)
  {
    if step.SentKept? {
      assert Owned(s.hist.keys, step.key, step.key, s.live[step.key].change);
    }
  }

  lemma RetriedOwned(s: State, step: Step, x: Item)
    requires InvIds(s) && InvOwners(s) && Enabled(s, step) && x in s.queue
    requires step.RetryItem? && x.id == step.id && Renews(x)
    ensures Owned(HistoryAfter(s, step).keys, step.freshKey, Origin(x), x.change)
  {
    MemberHolds(s.queue, x);
    assert Owned(s.hist.keys, x.idempotencyKey, Origin(x), x.change);
    KeysAfter(s, step);
  }

  lemma MovedOwned(s: State, step: Step, x: Item)
    requires InvIds(s) && InvOwners(s) && Enabled(s, step) && x in s.queue
    ensures var y := Moved(s, step, x); Owned(HistoryAfter(s, step).keys, y.idempotencyKey, Origin(y), y.change)
  {
    MovedOwner(s, step, x);
    MovedKey(s, step, x);
    if step.RetryItem? && x.id == step.id && Renews(x) {
      RetriedOwned(s, step, x);
    } else {
      KeysGrow(s, step);
      OwnedGrows(s.hist.keys, HistoryAfter(s, step).keys, x.idempotencyKey, Origin(x), x.change);
    }
  }

  lemma OwnersOfItems(s: State, step: Step, y: Item)
    requires InvIds(s) && InvOwners(s) && Enabled(s, step) && y in QueueAfter(s, step)
    ensures Owned(HistoryAfter(s, step).keys, y.idempotencyKey, Origin(y), y.change)
  {
    if Added(s, step) == Some(y) {
      AddedOwned(s, step);
    } else {
      var x := CameFrom(s, step, y);
      MovedOwned(s, step, x);
    }
  }

  lemma OwnersOfRequests(s: State, step: Step, r: Request)
    requires InvOwners(s) && Enabled(s, step) && r in NetAfter(s, step)
    ensures Owned(HistoryAfter(s, step).keys, r.key, r.origin, r.change)
  {
    if r in s.net {
      KeysGrow(s, step);
      OwnedGrows(s.hist.keys, HistoryAfter(s, step).keys, r.key, r.origin, r.change);
    } else if step.Pick? {
      var item := s.queue[NextPick(s.queue, s.flush.value.user, s.flush.value.tried)];
      assert item in s.queue;
    }
  }

  lemma OwnersOfLives(s: State, step: Step, k: string)
    requires InvOwners(s) && Enabled(s, step) && k in LiveAfter(s, step)
    ensures Owned(HistoryAfter(s, step).keys, k, k, LiveAfter(s, step)[k].change)
  {
    if k in s.live && !step.SendNow? {
      KeysGrow(s, step);
      OwnedGrows(s.hist.keys, HistoryAfter(s, step).keys, k, k, s.live[k].change);
    }
  }

  lemma AnsweredAfter(s: State, step: Step)
    requires Enabled(s, step)
    ensures forall k :: k in ServerAfter(s, step).answers ==>
      k in s.server.answers || ((step.Accept? || step.Refuse?) && step.request in s.net && k == step.request.key)
    ensures forall k :: IsRefused(s.server.answers, k) ==> IsRefused(ServerAfter(s, step).answers, k)
    ensures forall k :: k in s.server.answers ==> k in ServerAfter(s, step).answers && ServerAfter(s, step).answers[k] == s.server.answers[k]
  {
  }

  lemma OwnersKept(s: State, step: Step)
    requires InvIds(s) && InvOwners(s) && Enabled(s, step)
    ensures InvOwners(Apply(s, step))
  {
    forall y | y in QueueAfter(s, step) ensures Owned(HistoryAfter(s, step).keys, y.idempotencyKey, Origin(y), y.change) {
      OwnersOfItems(s, step, y);
    }
    forall r | r in NetAfter(s, step) ensures Owned(HistoryAfter(s, step).keys, r.key, r.origin, r.change) {
      OwnersOfRequests(s, step, r);
    }
    forall k | k in LiveAfter(s, step) ensures Owned(HistoryAfter(s, step).keys, k, k, LiveAfter(s, step)[k].change) {
      OwnersOfLives(s, step, k);
    }
    AnswersKept(s, step);
    KeyTableKept(s, step);
  }

  lemma AnswersKept(s: State, step: Step)
    requires InvOwners(s) && Enabled(s, step)
    ensures forall k :: k in ServerAfter(s, step).answers ==> k in HistoryAfter(s, step).keys
  {
    AnsweredAfter(s, step);
    KeysGrow(s, step);
    forall k | k in ServerAfter(s, step).answers ensures k in HistoryAfter(s, step).keys {
      if k !in s.server.answers { assert Owned(s.hist.keys, step.request.key, step.request.origin, step.request.change); }
    }
  }

  predicate OriginIn(keys: Keys, key: string)
    requires key in keys
  {
    keys[key].origin in keys
  }

  ghost predicate KeyTable(keys: Keys) {
    && (forall k {:trigger OriginIn(keys, k)} :: k in keys ==> OriginIn(keys, k))
    && (forall k, l {:trigger keys[k], keys[l]} :: k in keys && l in keys && keys[k].origin == keys[l].origin ==> keys[k] == keys[l])
  }

  lemma KeyTableKept(s: State, step: Step)
    requires InvIds(s) && InvOwners(s) && Enabled(s, step)
    ensures KeyTable(HistoryAfter(s, step).keys)
  {
    KeysAfter(s, step);
    NewKeyOwner(s, step);
    if NewKey(s, step).Some? {
      KeyTableGrows(s.hist.keys, NewKey(s, step).value.0, NewKey(s, step).value.1);
    }
  }

  lemma KeyTableGrows(keys: Keys, key: string, owner: Owner)
    requires KeyTable(keys) && key !in keys
    requires owner.origin == key || exists l :: l in keys && keys[l] == owner
    ensures KeyTable(keys[key := owner])
  {
    var grown := keys[key := owner];
    forall k | k in grown ensures OriginIn(grown, k) {
      if k != key {
        assert OriginIn(keys, k);
      } else if owner.origin != key {
        var l :| l in keys && keys[l] == owner;
        assert OriginIn(keys, l);
      }
    }
    forall k, l | k in grown && l in grown && grown[k].origin == grown[l].origin ensures grown[k] == grown[l] {
      if k == key && l != key {
        SameOwner(keys, key, owner, l);
      } else if l == key && k != key {
        SameOwner(keys, key, owner, k);
      }
    }
  }

  lemma SameOwner(keys: Keys, key: string, owner: Owner, k: string)
    requires KeyTable(keys) && key !in keys && k in keys && keys[k].origin == owner.origin
    requires owner.origin == key || exists l :: l in keys && keys[l] == owner
    ensures keys[k] == owner
  {
    assert OriginIn(keys, k);
    var l :| l in keys && keys[l] == owner;
  }

  /** A renewed key has the owner of the key before it. */
  lemma NewKeyOwner(s: State, step: Step)
    requires InvIds(s) && InvOwners(s) && Enabled(s, step)
    ensures NewKey(s, step).Some? ==>
      var (k, o) := NewKey(s, step).value;
      k !in s.hist.keys && (o.origin == k || (o.origin in s.hist.keys && exists l :: l in s.hist.keys && s.hist.keys[l] == o))
  {
    if step.RetryItem? && NewKey(s, step).Some? {
      HoldsMember(s.queue, step.id);
      var x := s.queue[IndexOf(s.queue, step.id)];
      assert Owned(s.hist.keys, x.idempotencyKey, Origin(x), x.change);
    }
  }

  // ---- One change, one queued item ----------------------------------------------------------------

  /** No two queued or live changes have the same origin. */
  ghost predicate InvOrigins(s: State) {
    && (forall x, y :: x in s.queue && y in s.queue && Origin(x) == Origin(y) ==> x.id == y.id)
    && (forall x :: x in s.queue ==> Origin(x) !in s.live)
  }

  lemma AddedOrigin(s: State, step: Step)
    requires InvOwners(s) && InvOrigins(s) && Enabled(s, step) && Added(s, step).Some?
    ensures Origin(Added(s, step).value) !in LiveAfter(s, step)
    ensures forall x :: x in s.queue ==> Origin(x) != Origin(Added(s, step).value)
  {
    forall x | x in s.queue ensures Origin(x) != Origin(Added(s, step).value) {
      assert Owned(s.hist.keys, x.idempotencyKey, Origin(x), x.change);
    }
    forall k | k in s.live ensures k in s.hist.keys {
      assert Owned(s.hist.keys, k, k, s.live[k].change);
    }
  }

  lemma MovedOrigin(s: State, step: Step, x: Item)
    requires InvOwners(s) && InvOrigins(s) && Enabled(s, step) && x in s.queue
    ensures Origin(Moved(s, step, x)) == Origin(x)
    ensures Origin(x) !in LiveAfter(s, step)
  {
    MovedKin(s, step, x);
    assert Owned(s.hist.keys, x.idempotencyKey, Origin(x), x.change);
  }

  lemma OriginsKept(s: State, step: Step)
    requires InvIds(s) && InvOwners(s) && InvOrigins(s) && Enabled(s, step)
    ensures InvOrigins(Apply(s, step))
  {
    if Added(s, step).Some? { AddedOrigin(s, step); }
    forall y | y in QueueAfter(s, step) ensures Origin(y) !in LiveAfter(s, step) {
      if Added(s, step) != Some(y) {
        var x := CameFrom(s, step, y);
        MovedOrigin(s, step, x);
      }
    }
    forall y, z | y in QueueAfter(s, step) && z in QueueAfter(s, step) && Origin(y) == Origin(z) ensures y.id == z.id {
      SameOrigin(s, step, y, z);
    }
  }

  lemma SameOrigin(s: State, step: Step, y: Item, z: Item)
    requires InvIds(s) && InvOwners(s) && InvOrigins(s) && Enabled(s, step)
    requires y in QueueAfter(s, step) && z in QueueAfter(s, step) && Origin(y) == Origin(z)
    ensures y.id == z.id
  {
    if Added(s, step).Some? { AddedOrigin(s, step); }
    if Added(s, step) != Some(y) {
      var x := CameFrom(s, step, y);
      MovedOrigin(s, step, x);
      if Added(s, step) != Some(z) {
        var w := CameFrom(s, step, z);
        MovedOrigin(s, step, w);
      }
    } else if Added(s, step) != Some(z) {
      var w := CameFrom(s, step, z);
      MovedOrigin(s, step, w);
    }
  }

  /** In every run. */
  lemma {:induction false} OwnersInvariant(states: seq<State>, steps: seq<Step>, n: nat)
    requires IsTrace(states, steps) && n <= |steps|
    ensures InvIds(states[n]) && InvOwners(states[n])
  {
    if n > 0 {
      OwnersInvariant(states, steps, n - 1);
      assert OneStep(states[n - 1], steps[n - 1], states[n]);
      IdsKept(states[n - 1], steps[n - 1]);
      OwnersKept(states[n - 1], steps[n - 1]);
    }
  }

  lemma PostsAfter(s: State, step: Step)
    requires Enabled(s, step)
    ensures var posts := ServerAfter(s, step).posts;
      posts == s.server.posts
      || (step.Accept? && step.request in s.net && IsPost(step.request.change) && step.request.key !in s.server.answers
          && ServerAfter(s, step).answers == s.server.answers[step.request.key := Done]
          && posts == s.server.posts + [OwnerOf(step.request.origin, step.request.change)])
  {
  }

  // ---- Chat messages ------------------------------------------------------------------------------------

  /** Stored messages carry stored client ids, each once. */
  ghost predicate InvMessages(s: State) {
    && (forall i :: 0 <= i < |s.server.posts| && s.server.posts[i].client.Some? ==> s.server.posts[i].client.value in s.server.messages)
    && (forall i, j :: 0 <= i < j < |s.server.posts| && s.server.posts[i].client.Some? ==> s.server.posts[i] != s.server.posts[j])
    && (forall i, j :: 0 <= i < j < |s.server.posts| && s.server.posts[i].client.Some? && s.server.posts[j].client.Some? ==>
          s.server.posts[i].client != s.server.posts[j].client)
  }

  lemma MessagesAfter(s: State, step: Step)
    requires Enabled(s, step)
    ensures s.server.messages <= ServerAfter(s, step).messages
    ensures ServerAfter(s, step).posts != s.server.posts && step.request.change.ChatSend? ==>
      ClientId(step.request) !in s.server.messages && ClientId(step.request) in ServerAfter(s, step).messages
  {
  }

  lemma MessagesKept(s: State, step: Step)
    requires InvMessages(s) && Enabled(s, step)
    ensures InvMessages(Apply(s, step))
  {
    PostsAfter(s, step);
    MessagesAfter(s, step);
  }

  /** A chat message with its own client id is stored at most once in every run, 408s and any other answers included. */
  lemma {:induction false} MessageStoredOnce(steps: seq<Step>)
    requires Run(steps).Some?
    ensures InvMessages(Run(steps).value)
  {
    if steps != [] {
      MessageStoredOnce(steps[..|steps| - 1]);
      MessagesKept(Run(steps[..|steps| - 1]).value, steps[|steps| - 1]);
    }
  }

  // ---- When Retry takes a new key ------------------------------------------------------------------

  /** A chat message with an id of its own, which the server stores once whatever its key. */
  predicate IsOwnMessage(c: Change) {
    c.ChatSend? && c.clientId.Some?
  }

  ghost predicate WasSent(s: State, key: string) {
    exists r :: r in s.net && r.key == key
  }

  /** A Retry gives a POST a new key only when the server has refused its key, or the key was never sent; a message with its own id may get one anyway. */
  ghost predicate Honest(s: State, step: Step)
    requires Enabled(s, step)
  {
    step.RetryItem? && Holds(s.queue, step.id) ==>
      var x := s.queue[IndexOf(s.queue, step.id)];
      Renews(x) && IsPost(x.change) && !IsOwnMessage(x.change) ==>
        IsRefused(s.server.answers, x.idempotencyKey) || !WasSent(s, x.idempotencyKey)
  }

  /** A run of honest steps. */
  ghost predicate HonestRun(steps: seq<Step>) {
    && Run(steps).Some?
    && (steps != [] ==> HonestRun(steps[..|steps| - 1]) && Honest(Run(steps[..|steps| - 1]).value, steps[|steps| - 1]))
  }

  // ---- Dead keys -----------------------------------------------------------------------------------

  /** Never sent, and nobody's to send. */
  ghost predicate Unused(s: State, key: string) {
    !WasSent(s, key) && key !in s.live && forall x :: x in s.queue ==> x.idempotencyKey != key
  }

  /** Nothing comes of this key any more. */
  ghost predicate Dead(s: State, key: string) {
    IsRefused(s.server.answers, key) || Unused(s, key)
  }

  lemma NetAfterIs(s: State, step: Step, r: Request)
    requires Enabled(s, step) && r in NetAfter(s, step) && r !in s.net
    ensures (step.SendNow? && r.key == step.key) || (step.Pick? && Picked(s) in s.queue && r == RequestOf(Picked(s)))
  {
  }

  lemma UnusedStays(s: State, step: Step, key: string)
    requires InvIds(s) && Enabled(s, step) && key in s.hist.keys && Unused(s, key)
    ensures Unused(Apply(s, step), key)
  {
    forall r | r in NetAfter(s, step) ensures r.key != key {
      if r !in s.net { NetAfterIs(s, step, r); }
    }
    forall y | y in QueueAfter(s, step) ensures y.idempotencyKey != key {
      if Added(s, step) == Some(y) {
        AddedKey(s, step);
      } else {
        var x := CameFrom(s, step, y);
        MovedKey(s, step, x);
      }
    }
    LiveKeys(s, step, key);
  }

  lemma AddedKey(s: State, step: Step)
    requires Enabled(s, step) && Added(s, step).Some?
    ensures Added(s, step).value.idempotencyKey !in s.hist.keys || Added(s, step).value.idempotencyKey in s.live
  {
  }

  lemma LiveKeys(s: State, step: Step, key: string)
    requires Enabled(s, step) && key in s.hist.keys && key !in s.live
    ensures key !in LiveAfter(s, step)
  {
  }

  lemma DeadStays(s: State, step: Step, key: string)
    requires InvIds(s) && Enabled(s, step) && key in s.hist.keys && Dead(s, key)
    ensures Dead(Apply(s, step), key)
  {
    if IsRefused(s.server.answers, key) { AnsweredAfter(s, step); } else { UnusedStays(s, step, key); }
  }

  // ---- Of one change's keys all but one are dead --------------------------------------------------------

  ghost predicate OthersDead(s: State, origin: string, key: string) {
    forall k {:trigger s.hist.keys[k]} :: k in s.hist.keys && s.hist.keys[k].origin == origin && k != key ==> Dead(s, k)
  }

  ghost predicate OnlyKey(keys: Keys, origin: string) {
    forall k {:trigger keys[k]} :: k in keys && keys[k].origin == origin ==> k == origin
  }

  ghost predicate InvSpent(s: State) {
    && (forall x :: x in s.queue && IsPost(x.change) && !IsOwnMessage(x.change) ==> OthersDead(s, Origin(x), x.idempotencyKey))
    && (forall l :: l in s.live ==> OnlyKey(s.hist.keys, l))
  }

  predicate SamePost(keys: Keys, k: string, l: string) {
    k in keys && l in keys && k != l && keys[k].origin == keys[l].origin && keys[k].post && keys[k].client.None?
  }

  /** Of two keys of one POST change, a message with its own id aside, one is dead. */
  ghost predicate OneDead(s: State) {
    forall k, l {:trigger SamePost(s.hist.keys, k, l)} :: SamePost(s.hist.keys, k, l) ==> Dead(s, k) || Dead(s, l)
  }

  /** What was answered was sent. */
  ghost predicate InvAnswered(s: State) {
    forall k :: k in s.server.answers ==> WasSent(s, k)
  }

  lemma AnsweredKept(s: State, step: Step)
    requires InvAnswered(s) && Enabled(s, step)
    ensures InvAnswered(Apply(s, step))
  {
    AnsweredAfter(s, step);
    forall k | k in ServerAfter(s, step).answers ensures WasSent(Apply(s, step), k) {
      if k in s.server.answers {
        var r :| r in s.net && r.key == k;
        assert r in NetAfter(s, step);
      } else {
        assert step.request in NetAfter(s, step);
      }
    }
  }

  lemma OthersDeadGrows(s: State, step: Step, origin: string, key: string)
    requires InvIds(s) && Enabled(s, step) && OthersDead(s, origin, key)
    requires NewKey(s, step).Some? ==> NewKey(s, step).value.1.origin != origin || NewKey(s, step).value.0 == key
    ensures OthersDead(Apply(s, step), origin, key)
  {
    KeysAfter(s, step);
    var keys := HistoryAfter(s, step).keys;
    forall k {:trigger keys[k]} | k in keys && keys[k].origin == origin && k != key ensures Dead(Apply(s, step), k) {
      assert k in s.hist.keys && s.hist.keys[k] == keys[k];
      DeadStays(s, step, k);
    }
  }

  /** A key that an honest Retry replaces is dead. */
  lemma RenewedDead(s: State, step: Step, x: Item)
    requires InvIds(s) && InvOwners(s) && InvOrigins(s) && Enabled(s, step) && Honest(s, step)
    requires x in s.queue && IsPost(x.change) && !IsOwnMessage(x.change) && step.RetryItem? && x.id == step.id && Renews(x)
    ensures Dead(Apply(s, step), x.idempotencyKey)
  {
    MemberHolds(s.queue, x);
    if IsRefused(s.server.answers, x.idempotencyKey) {
      AnsweredAfter(s, step);
    } else {
      forall y | y in QueueAfter(s, step) ensures y.idempotencyKey != x.idempotencyKey { ReplacedKey(s, step, x, y); }
      NotLive(s, x);
      LiveKeys(s, step, x.idempotencyKey);
    }
  }

  lemma ReplacedKey(s: State, step: Step, x: Item, y: Item)
    requires InvIds(s) && InvOwners(s) && InvOrigins(s) && Enabled(s, step) && y in QueueAfter(s, step)
    requires x in s.queue && step.RetryItem? && x.id == step.id && Renews(x)
    ensures y.idempotencyKey != x.idempotencyKey
  {
    var z := CameFrom(s, step, y);
    MovedKey(s, step, z);
    MovedKey(s, step, x);
    assert Owned(s.hist.keys, x.idempotencyKey, Origin(x), x.change) && Owned(s.hist.keys, z.idempotencyKey, Origin(z), z.change);
    if z.id == x.id { MemberHolds(s.queue, z); MemberHolds(s.queue, x); }
  }

  lemma NotLive(s: State, x: Item)
    requires InvOwners(s) && InvOrigins(s) && x in s.queue
    ensures x.idempotencyKey in s.hist.keys && x.idempotencyKey !in s.live
  {
    assert Owned(s.hist.keys, x.idempotencyKey, Origin(x), x.change);
    assert forall k :: k in s.live ==> Owned(s.hist.keys, k, k, s.live[k].change);
  }

  lemma RenewedOthers(s: State, step: Step, x: Item)
    requires InvIds(s) && InvOwners(s) && InvOrigins(s) && InvSpent(s) && Enabled(s, step) && Honest(s, step)
    requires x in s.queue && IsPost(x.change) && !IsOwnMessage(x.change) && step.RetryItem? && x.id == step.id && Renews(x)
    ensures forall k :: k in s.hist.keys && s.hist.keys[k].origin == Origin(x) ==> Dead(Apply(s, step), k)
  {
    RenewedDead(s, step, x);
    assert OthersDead(s, Origin(x), x.idempotencyKey);
    forall k | k in s.hist.keys && s.hist.keys[k].origin == Origin(x) ensures Dead(Apply(s, step), k) {
      if k != x.idempotencyKey { DeadStays(s, step, k); }
    }
  }

  lemma NewKeyOrigin(s: State, step: Step, x: Item)
    requires InvIds(s) && InvOwners(s) && InvOrigins(s) && Enabled(s, step) && x in s.queue
    requires !(step.RetryItem? && x.id == step.id)
    ensures NewKey(s, step).Some? ==> NewKey(s, step).value.1.origin != Origin(x)
  {
    assert Owned(s.hist.keys, x.idempotencyKey, Origin(x), x.change);
    if step.RetryItem? && NewKey(s, step).Some? {
      HoldsMember(s.queue, step.id);
    }
  }

  lemma ItemSpent(s: State, step: Step, x: Item)
    requires InvIds(s) && InvOwners(s) && InvOrigins(s) && InvSpent(s) && Enabled(s, step) && Honest(s, step)
    requires x in s.queue && IsPost(x.change) && !IsOwnMessage(x.change)
    ensures OthersDead(Apply(s, step), Origin(x), Moved(s, step, x).idempotencyKey)
  {
    MovedKey(s, step, x);
    KeysAfter(s, step);
    if step.RetryItem? && x.id == step.id && Renews(x) {
      RenewedOthers(s, step, x);
    } else {
      if !(step.RetryItem? && x.id == step.id) { NewKeyOrigin(s, step, x); }
      OthersDeadGrows(s, step, Origin(x), x.idempotencyKey);
    }
  }

  lemma AddedSpent(s: State, step: Step)
    requires InvIds(s) && InvOwners(s) && InvSpent(s) && Enabled(s, step) && Added(s, step).Some?
    ensures var y := Added(s, step).value; OthersDead(Apply(s, step), Origin(y), y.idempotencyKey)
  {
    KeysAfter(s, step);
    if step.QueueBehind? {
      forall k | k in s.hist.keys ensures s.hist.keys[k].origin != step.key { assert OriginIn(s.hist.keys, k); }
    } else {
      assert OnlyKey(s.hist.keys, step.key);
    }
  }

  lemma LiveSpent(s: State, step: Step, l: string)
    requires InvIds(s) && InvOwners(s) && InvOrigins(s) && InvSpent(s) && Enabled(s, step) && l in LiveAfter(s, step)
    ensures OnlyKey(HistoryAfter(s, step).keys, l)
  {
    KeysAfter(s, step);
    if l !in s.live {
      forall k | k in s.hist.keys ensures s.hist.keys[k].origin != l { assert OriginIn(s.hist.keys, k); }
    } else {
      assert OnlyKey(s.hist.keys, l);
      assert Owned(s.hist.keys, l, l, s.live[l].change);
      if step.RetryItem? && NewKey(s, step).Some? {
        HoldsMember(s.queue, step.id);
        assert Origin(s.queue[IndexOf(s.queue, step.id)]) != l;
      }
    }
  }

  lemma SpentKept(s: State, step: Step)
    requires InvIds(s) && InvOwners(s) && InvOrigins(s) && InvSpent(s) && Enabled(s, step) && Honest(s, step)
    ensures InvSpent(Apply(s, step))
  {
    var t := Apply(s, step);
    forall y | y in t.queue && IsPost(y.change) && !IsOwnMessage(y.change) ensures OthersDead(t, Origin(y), y.idempotencyKey) {
      if Added(s, step) == Some(y) {
        AddedSpent(s, step);
      } else {
        var x := CameFrom(s, step, y);
        MovedKin(s, step, x);
        ItemSpent(s, step, x);
      }
    }
    forall l | l in t.live ensures OnlyKey(t.hist.keys, l) {
      LiveSpent(s, step, l);
    }
  }

  /** A new key of a POST change comes only once every key it had is dead. */
  lemma NewKeyOthers(s: State, step: Step, k: string)
    requires InvIds(s) && InvOwners(s) && InvOrigins(s) && InvSpent(s) && Enabled(s, step) && Honest(s, step)
    requires NewKey(s, step).Some? && k in s.hist.keys
    requires s.hist.keys[k].origin == NewKey(s, step).value.1.origin && s.hist.keys[k].post && s.hist.keys[k].client.None?
    ensures Dead(Apply(s, step), k)
  {
    assert OriginIn(s.hist.keys, k);
    if step.RetryItem? {
      HoldsMember(s.queue, step.id);
      var x := s.queue[IndexOf(s.queue, step.id)];
      assert Owned(s.hist.keys, x.idempotencyKey, Origin(x), x.change);
      assert s.hist.keys[x.idempotencyKey] == s.hist.keys[k];
      RenewedOthers(s, step, x);
    }
  }

  lemma OneDeadKept(s: State, step: Step)
    requires InvIds(s) && InvOwners(s) && InvOrigins(s) && InvSpent(s) && OneDead(s) && Enabled(s, step) && Honest(s, step)
    ensures OneDead(Apply(s, step))
  {
    KeysAfter(s, step);
    NewKeyOwner(s, step);
    var t := Apply(s, step);
    forall k, l {:trigger SamePost(t.hist.keys, k, l)} | SamePost(t.hist.keys, k, l) ensures Dead(t, k) || Dead(t, l) {
      if k in s.hist.keys && l in s.hist.keys {
        assert SamePost(s.hist.keys, k, l);
        if Dead(s, k) { DeadStays(s, step, k); } else { DeadStays(s, step, l); }
      } else {
        NewAndOld(s, step, k, l);
      }
    }
  }

  lemma NewAndOld(s: State, step: Step, k: string, l: string)
    requires InvIds(s) && InvOwners(s) && InvOrigins(s) && InvSpent(s) && Enabled(s, step) && Honest(s, step)
    requires SamePost(HistoryAfter(s, step).keys, k, l)
    requires k !in s.hist.keys || l !in s.hist.keys
    ensures Dead(Apply(s, step), k) || Dead(Apply(s, step), l)
  {
    KeysAfter(s, step);
    var keys := HistoryAfter(s, step).keys;
    KeyTableKept(s, step);
    assert keys[k] == keys[l];
    NewKeyOthers(s, step, if k in s.hist.keys then k else l);
  }

  // ---- Applied once --------------------------------------------------------------------------------

  ghost predicate AppliedUnderKey(keys: Keys, answers: Answers, owner: Owner) {
    owner.post && exists k :: k in keys && keys[k] == owner && k in answers && answers[k] == Done
  }

  /** Every applied POST change was applied under a key of its own, and none twice. */
  ghost predicate InvApplied(s: State) {
    && (forall i :: 0 <= i < |s.server.posts| ==> AppliedUnderKey(s.hist.keys, s.server.answers, s.server.posts[i]))
    && (forall i, j :: 0 <= i < j < |s.server.posts| ==> s.server.posts[i].origin != s.server.posts[j].origin)
  }

  lemma AppliedGrows(keys: Keys, answers: Answers, keys': Keys, answers': Answers, owner: Owner)
    requires AppliedUnderKey(keys, answers, owner)
    requires forall k :: k in keys ==> k in keys' && keys'[k] == keys[k]
    requires forall k :: k in answers ==> k in answers' && answers'[k] == answers[k]
    ensures AppliedUnderKey(keys', answers', owner)
  {
    var k :| k in keys && keys[k] == owner && k in answers && answers[k] == Done;
    assert k in keys' && keys'[k] == owner;
  }

  /** A key answered for the first time is its change's first success: every other key of it is dead. */
  lemma FirstSuccess(s: State, r: Request, i: nat)
    requires InvOwners(s) && InvApplied(s) && OneDead(s) && InvAnswered(s)
    requires r in s.net && IsPost(r.change) && !IsOwnMessage(r.change) && r.key !in s.server.answers && i < |s.server.posts|
    ensures s.server.posts[i].origin != r.origin
  {
    assert Owned(s.hist.keys, r.key, r.origin, r.change);
    assert AppliedUnderKey(s.hist.keys, s.server.answers, s.server.posts[i]);
    var k :| k in s.hist.keys && s.hist.keys[k] == s.server.posts[i] && k in s.server.answers && s.server.answers[k] == Done;
    assert WasSent(s, k) && WasSent(s, r.key);
    assert s.hist.keys[k].origin == r.origin && k != r.key ==> SamePost(s.hist.keys, k, r.key);
  }

  /** A message stored for the first time is not stored under another key. */
  lemma FirstStored(s: State, r: Request, i: nat)
    requires InvOwners(s) && InvApplied(s) && InvMessages(s)
    requires r in s.net && IsOwnMessage(r.change) && ClientId(r) !in s.server.messages && i < |s.server.posts|
    ensures s.server.posts[i].origin != r.origin
  {
    assert Owned(s.hist.keys, r.key, r.origin, r.change);
    assert AppliedUnderKey(s.hist.keys, s.server.answers, s.server.posts[i]);
    var k :| k in s.hist.keys && s.hist.keys[k] == s.server.posts[i];
    var here, there := s.hist.keys[r.key], s.hist.keys[k];
    assert there.origin == here.origin ==> there == here;
  }

  lemma AppliedKept(s: State, step: Step)
    requires InvOwners(s) && InvApplied(s) && OneDead(s) && InvAnswered(s) && InvMessages(s) && Enabled(s, step)
    ensures InvApplied(Apply(s, step))
  {
    var keys, answers, posts := HistoryAfter(s, step).keys, ServerAfter(s, step).answers, ServerAfter(s, step).posts;
    AnsweredAfter(s, step);
    KeysGrow(s, step);
    PostsAfter(s, step);
    forall i | 0 <= i < |s.server.posts| ensures AppliedUnderKey(keys, answers, s.server.posts[i]) {
      AppliedGrows(s.hist.keys, s.server.answers, keys, answers, s.server.posts[i]);
    }
    if posts != s.server.posts {
      var r := step.request;
      assert Owned(s.hist.keys, r.key, r.origin, r.change);
      assert keys[r.key] == OwnerOf(r.origin, r.change) && answers[r.key] == Done;
      forall i | 0 <= i < |s.server.posts| ensures s.server.posts[i].origin != r.origin { NewPost(s, step, i); }
    }
  }

  lemma NewPost(s: State, step: Step, i: nat)
    requires InvOwners(s) && InvApplied(s) && OneDead(s) && InvAnswered(s) && InvMessages(s) && Enabled(s, step)
    requires ServerAfter(s, step).posts != s.server.posts && i < |s.server.posts| && step.Accept?
    ensures s.server.posts[i].origin != step.request.origin
  {
    PostsAfter(s, step);
    MessagesAfter(s, step);
    if IsOwnMessage(step.request.change) { FirstStored(s, step.request, i); } else { FirstSuccess(s, step.request, i); }
  }

  // ---- The theorem -------------------------------------------------------------------------------------

  ghost predicate InvOnce(s: State) {
    && InvIds(s) && InvOwners(s) && InvOrigins(s) && InvSpent(s)
    && OneDead(s) && InvAnswered(s) && InvMessages(s) && InvApplied(s)
  }

  lemma OnceKept(s: State, step: Step)
    requires InvOnce(s) && Enabled(s, step) && Honest(s, step)
    ensures InvOnce(Apply(s, step))
  {
    IdsKept(s, step);
    OwnersKept(s, step);
    OriginsKept(s, step);
    SpentKept(s, step);
    OneDeadKept(s, step);
    AnsweredKept(s, step);
    MessagesKept(s, step);
    AppliedKept(s, step);
  }

  lemma {:induction false} OnceInvariant(steps: seq<Step>)
    requires HonestRun(steps)
    ensures InvOnce(Run(steps).value)
  {
    if steps != [] {
      OnceInvariant(steps[..|steps| - 1]);
      OnceKept(Run(steps[..|steps| - 1]).value, steps[|steps| - 1]);
    }
  }

  /**
    * At most once: over every honest run of lost and late answers, refusals, 5xx answers, pauses, give-ups and
    * Retries, the server applies no POST change twice.
    */
  lemma AtMostOnce(steps: seq<Step>)
    requires HonestRun(steps)
    ensures var posts := Run(steps).value.server.posts;
      forall i, j :: 0 <= i < j < |posts| ==> posts[i].origin != posts[j].origin
  {
    OnceInvariant(steps);
  }
}
