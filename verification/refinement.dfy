/** The queue's own code takes the protocol's steps: what `makePerformMutation`, `flushQueue` and `sendOrQueue` do is allowed there, and does the same. */
module Refinement {
  import opened Lists
  import opened Changes
  import opened QueueWrites
  import opened Replays
  import opened SyncQueues
  import P = Protocol

  /** However a replay fails, the protocol has that failure, with the same queue write and the same verdict on the item. */
  lemma FailureIsAStep(s: P.State, tags: Response, sent: Response, reload: Response)
    requires P.CurrentItem(s).Some? && Perform(P.CurrentItem(s).value.change, tags, sent, reload).Stopped?
    ensures var item := P.CurrentItem(s).value;
      var reply := Perform(item.change, tags, sent, reload);
      var step := P.ReplayFailed(reply.status, reply.outcome);
      && P.Enabled(s, step)
      && P.QueueAfter(s, step) == AfterReply(s.queue, item, reply, MAX_ATTEMPTS)
      && (Holds(s.queue, item.id) && s.queue[IndexOf(s.queue, item.id)].attempts == item.attempts ==>
            (P.GivesUp(s, reply.outcome) <==> EndOf(item, reply, MAX_ATTEMPTS) == GivenUp))
      && (P.FlushAfter(s, step).None? <==> !P.GivesUp(s, reply.outcome))
  {
    PerformStops(P.CurrentItem(s).value.change, tags, sent, reload);
  }

  /** The ways a replay fails. */
  lemma PerformStops(c: Change, tags: Response, sent: Response, reload: Response)
    requires Perform(c, tags, sent, reload).Stopped?
    ensures var r := Perform(c, tags, sent, reload);
      && (r.status.None? ==> r.outcome != Fail)
      && (r.status.Some? ==>
            || r.outcome == OutcomeForStatus(r.status.value, true) || r.outcome == OutcomeForStatus(r.status.value, false)
            || (c.TaskUpdate? && r.outcome == Outcome.Retry))
  {
  }

  /** A replay the server answered has the same success write. */
  lemma SuccessIsAStep(s: P.State, made: Option<int>)
    requires P.Enabled(s, P.ReplayOk(made))
    ensures P.QueueAfter(s, P.ReplayOk(made)) == AfterReply(s.queue, P.CurrentItem(s).value, Synced(made), MAX_ATTEMPTS)
    ensures EndOf(P.CurrentItem(s).value, Synced(made), MAX_ATTEMPTS) == SyncQueues.Done
  {
  }

  /** A change sent now leaves the queue as the protocol's step for its answer does, and a kept one keeps its key. */
  lemma SendingIsAStep(s: P.State, key: string, id: string, tags: Response, sent: Response)
    requires key in s.live && s.live[key].user != "" && id !in s.hist.enqueued
    ensures var l := s.live[key];
      var answer := SentNow(l.change, tags, sent);
      var told := Told(answer, l.change, l.user, key, false, id, true);
      var after := AfterSending(s.queue, told, answer, l.change, l.user, true);
      match answer
      case Kept => after == P.QueueAfter(s, P.SentKept(key, id)) && told.Queued? && told.item.idempotencyKey == key
      case Refusal(_, _) => after == P.QueueAfter(s, P.SentRefused(key))
      case Gone => after == s.queue
      case Success(made) => P.Enabled(s, P.SentOk(key, made)) ==> after == P.QueueAfter(s, P.SentOk(key, made))
  {
  }
}
