/** Nothing queued is ever lost, and a flush leaves other people's changes alone. */
module Conservation {
  import opened Lists
  import opened Changes
  import opened QueueWrites
  import opened Protocol
  import opened StepItems

  lemma IdsAfter(s: State, step: Step)
    requires InvIds(s) && Enabled(s, step)
    ensures Ids(QueueAfter(s, step)) == (set id | id in Ids(s.queue) && !Takes(s, step, id)) + AddedIds(s, step)
  {
    EveryItem(s, step);
    var q := QueueAfter(s, step);
    forall id | id in Ids(q) ensures id in (set i | i in Ids(s.queue) && !Takes(s, step, i)) + AddedIds(s, step) {
      var y :| y in q && y.id == id;
      if Added(s, step) != Some(y) {
        var x :| x in s.queue && !Takes(s, step, x.id) && y == Moving(s, step)(x);
        MovedId(s, step, x);
      }
    }
    forall id | id in Ids(s.queue) && !Takes(s, step, id) ensures id in Ids(q) {
      var x :| x in s.queue && x.id == id;
      MovedId(s, step, x);
      assert Moving(s, step)(x) in q;
    }
  }

  lemma HoldsIds(q: Queue, id: string)
    ensures Holds(q, id) <==> id in Ids(q)
  {
    HoldsMember(q, id);
    if id in Ids(q) {
      var x :| x in q && x.id == id;
      MemberHolds(q, x);
    }
  }

  /** Every change ever queued is in exactly one of four places. */
  ghost predicate Conserved(q: set<string>, h: History) {
    && q + h.synced + h.discarded + h.cleared == h.enqueued
    && q !! h.synced && q !! h.discarded && q !! h.cleared
    && h.synced !! h.discarded && h.synced !! h.cleared && h.discarded !! h.cleared
  }

  /** What a step adds to the three places a change can leave the queue for. */
  lemma PlacesAfter(s: State, step: Step)
    requires Enabled(s, step)
    ensures var h, g := s.hist, HistoryAfter(s, step);
      && g.synced == h.synced + (if step.ReplayOk? || step.ReplayHeld? then TakenIds(s, step) else {})
      && g.discarded == h.discarded + (if step.Discard? then TakenIds(s, step) else {})
      && g.cleared == h.cleared + (if step.Clear? then Ids(s.queue) else {})
  {
    if Taken(s, step).Some? {
      HoldsIds(s.queue, Taken(s, step).value);
      assert TakenIds(s, step) == if Holds(s.queue, Taken(s, step).value) then {Taken(s, step).value} else {};
    }
    SyncedAfter(s, step);
  }

  lemma SyncedAfter(s: State, step: Step)
    requires Enabled(s, step)
    ensures HistoryAfter(s, step).synced == s.hist.synced +
      if (step.ReplayOk? || step.ReplayHeld?) && Holds(s.queue, CurrentItem(s).value.id) then {CurrentItem(s).value.id} else {}
  {
  }

  function TakenIds(s: State, step: Step): set<string>
    requires Enabled(s, step)
  {
    set id | id in Ids(s.queue) && Taken(s, step) == Some(id)
  }

  /** Ids that leave the queue for one place, or new ones that come in, keep the four places apart and complete. */
  lemma ConservedMoves(q: set<string>, h: History, r: set<string>, g: History,
      synced: set<string>, discarded: set<string>, cleared: set<string>, added: set<string>)
    requires Conserved(q, h) && added !! h.enqueued
    requires synced + discarded + cleared <= q
    requires synced !! discarded && synced !! cleared && discarded !! cleared
    requires r == q - synced - discarded - cleared + added
    requires g.synced == h.synced + synced && g.discarded == h.discarded + discarded && g.cleared == h.cleared + cleared
    requires g.enqueued == h.enqueued + added
    ensures Conserved(r, g)
  {
  }

  lemma ConservedStep(s: State, step: Step)
    requires InvIds(s) && Conserved(Ids(s.queue), s.hist) && Enabled(s, step)
    ensures Conserved(Ids(QueueAfter(s, step)), HistoryAfter(s, step))
  {
    var q := Ids(s.queue);
    IdsAfter(s, step);
    EnqueuedGrows(s, step);
    PlacesAfter(s, step);
    var taken, added := TakenIds(s, step), AddedIds(s, step);
    var synced := if step.ReplayOk? || step.ReplayHeld? then taken else {};
    var discarded := if step.Discard? then taken else {};
    var cleared := if step.Clear? then q else {};
    assert taken <= q;
    ConservedMoves(q, s.hist, Ids(QueueAfter(s, step)), HistoryAfter(s, step), synced, discarded, cleared, added);
  }

  /** In every run: no change is lost to another write, synced twice, or both synced and discarded. */
  lemma {:induction false} NothingIsLost(steps: seq<Step>)
    requires Run(steps).Some?
    ensures InvIds(Run(steps).value) && Conserved(Ids(Run(steps).value.queue), Run(steps).value.hist)
  {
    if steps != [] {
      var init, last := steps[..|steps| - 1], steps[|steps| - 1];
      NothingIsLost(init);
      IdsKept(Run(init).value, last);
      ConservedStep(Run(init).value, last);
    }
  }

  // ---- One person's flush ---------------------------------------------------------------------

  /** The steps of a flush of `user`. */
  predicate IsFlushWrite(s: State, step: Step, user: string) {
    s.flush.Some? && s.flush.value.user == user && (step.ReplayOk? || step.ReplayHeld? || step.ReplayFailed?)
  }

  /** A flush's writes leave every other person's items as they are, and in their order. */
  lemma OthersKept(s: State, step: Step, user: string)
    requires InvIds(s) && InvCurrent(s) && Enabled(s, step) && IsFlushWrite(s, step, user)
    ensures Filter(QueueAfter(s, step), NotOf(user)) == Filter(s.queue, NotOf(user))
  {
    var item := CurrentItem(s).value;
    forall x | x in s.queue && x.id == item.id ensures x.userId == user {
      assert Kin(x, item);
    }
    match step
    case ReplayFailed(status, outcome) =>
      FailureKeepsOthers(s.queue, item.id, status, outcome == Fail, MAX_ATTEMPTS, user);
    case ReplayOk(made) => SuccessKeepsOthers(s.queue, item, made);
    case ReplayHeld(made) => SuccessKeepsOthers(s.queue, item, made);
  }

  /** In every run, at every write of a flush. */
  lemma {:induction false} FlushKeepsOthers(steps: seq<Step>, last: Step, user: string)
    requires Run(steps).Some? && Enabled(Run(steps).value, last) && IsFlushWrite(Run(steps).value, last, user)
    ensures Filter(QueueAfter(Run(steps).value, last), NotOf(user)) == Filter(Run(steps).value.queue, NotOf(user))
  {
    NothingIsLost(steps);
    CurrentInvariant(steps);
    OthersKept(Run(steps).value, last, user);
  }

  lemma {:induction false} CurrentInvariant(steps: seq<Step>)
    requires Run(steps).Some?
    ensures InvCurrent(Run(steps).value)
  {
    if steps != [] {
      NothingIsLost(steps[..|steps| - 1]);
      CurrentInvariant(steps[..|steps| - 1]);
      CurrentKept(Run(steps[..|steps| - 1]).value, steps[|steps| - 1]);
    }
  }
}
