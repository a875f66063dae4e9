/**
  * Named locks in one context (Extension/src/locks.js): each caller waits for the tail of the chain of promises it
  * found, and leaves its own as the new tail. A step is what runs between two waits.
  */
module Locks {
  import opened Changes

  datatype Phase = Waiting | Running | Done | Refused

  /** A call of the lock: the tail it found (by the call that left it), and how far it has come. */
  datatype Call = Call(name: string, prev: Option<nat>, phase: Phase)

  /** `held` is the tail kept for each name; `calls` are all the calls so far, in order. */
  datatype Locks = Locks(held: map<string, nat>, calls: seq<Call>)

  datatype Step = Ask(name: string, ifAvailable: bool) | Start(n: nat) | Finish(n: nat)

  /** A tail is resolved when the one before it is and its own call has let go. */
  predicate Resolved(s: Locks, n: nat) {
    && n < |s.calls| && s.calls[n].phase == Done
    && (s.calls[n].prev.Some? ==> s.calls[n].prev.value < n && Resolved(s, s.calls[n].prev.value))
  }

  predicate Enabled(s: Locks, step: Step) {
    match step
    case Ask(_, _) => true
    case Start(n) => n < |s.calls| && s.calls[n].phase == Waiting && s.calls[n].prev.Some? && Resolved(s, s.calls[n].prev.value)
    case Finish(n) => n < |s.calls| && s.calls[n].phase == Running
  }

  function Apply(s: Locks, step: Step): Locks
    requires Enabled(s, step)
  {
    match step
    case Ask(name, ifAvailable) =>
      if name in s.held && ifAvailable then s.(calls := s.calls + [Call(name, None, Refused)])
      else
        var prev := if name in s.held then Some(s.held[name]) else None;
        Locks(s.held[name := |s.calls|], s.calls + [Call(name, prev, if prev.Some? then Waiting else Running)])
    case Start(n) => s.(calls := s.calls[n := s.calls[n].(phase := Running)])
    case Finish(n) =>
      var name := s.calls[n].name;
      var calls := s.calls[n := s.calls[n].(phase := Done)];
      Locks(if name in s.held && s.held[name] == n then s.held - {name} else s.held, calls)
  }

  predicate Goes(s: Locks, step: Step, t: Locks) {
    Enabled(s, step) && t == Apply(s, step)
  }

  ghost predicate Follows(s: Locks, t: Locks) {
    exists step :: Goes(s, step, t)
  }

  ghost predicate IsRun(run: seq<Locks>) {
    && run != [] && run[0] == Locks(map[], [])
    && forall i :: 0 < i < |run| ==> Follows(run[i - 1], run[i])
  }

  predicate InLine(c: Call, name: string) {
    c.name == name && c.phase != Refused
  }

  /** Of two calls of one name, the later one starts only when the earlier is done. */
  predicate InOrder(s: Locks) {
    forall a, b :: 0 <= a < b < |s.calls| && InLine(s.calls[a], s.calls[b].name) && s.calls[b].phase in {Running, Done} ==>
      s.calls[a].phase == Done
  }

  /** A call waits for the one of its name just before it. */
  predicate ChainedAt(calls: seq<Call>, b: nat)
    requires b < |calls|
  {
    calls[b].phase == Refused ||
    match calls[b].prev
    case None => calls[b].phase != Waiting && forall a :: 0 <= a < b && InLine(calls[a], calls[b].name) ==> calls[a].phase == Done
    case Some(p) => p < b && InLine(calls[p], calls[b].name) && forall a :: p < a < b ==> !InLine(calls[a], calls[b].name)
  }

  predicate Chained(s: Locks) {
    forall b :: 0 <= b < |s.calls| ==> ChainedAt(s.calls, b)
  }

  /** The tail kept for a name is its last call, not done yet; no tail means nobody has or awaits the lock. */
  predicate TailIsLast(s: Locks) {
    && (forall name :: name in s.held ==>
          && s.held[name] < |s.calls| && InLine(s.calls[s.held[name]], name) && s.calls[s.held[name]].phase != Done
          && forall a :: s.held[name] < a < |s.calls| ==> !InLine(s.calls[a], name))
    && (forall a :: 0 <= a < |s.calls| && s.calls[a].name !in s.held ==> s.calls[a].phase in {Done, Refused})
  }

  predicate Inv(s: Locks) {
    InOrder(s) && Chained(s) && TailIsLast(s)
  }

  /** What a tail waits for has let go. */
  lemma {:induction false} BeforeDone(s: Locks, b: nat, a: nat)
    requires Inv(s) && a < b < |s.calls| && s.calls[b].phase == Waiting && s.calls[b].prev.Some? && Resolved(s, s.calls[b].prev.value)
    requires InLine(s.calls[a], s.calls[b].name)
    ensures s.calls[a].phase == Done
  {
    assert ChainedAt(s.calls, b);
    var p := s.calls[b].prev.value;
    if a < p { assert s.calls[p].phase == Done; }
  }

  function Marked(s: Locks, n: nat, phase: Phase): seq<Call>
    requires n < |s.calls|
  {
    s.calls[n := s.calls[n].(phase := phase)]
  }

  /** A call that goes on to a later phase leaves the others as they are. */
  predicate Later(s: Locks, n: nat, phase: Phase) {
    && n < |s.calls|
    && (phase == Running ==> s.calls[n].phase == Waiting && s.calls[n].prev.Some? && Resolved(s, s.calls[n].prev.value))
    && (phase == Done ==> s.calls[n].phase == Running)
    && phase in {Running, Done}
  }

  lemma MarkedInOrder(s: Locks, n: nat, phase: Phase, held: map<string, nat>)
    requires Inv(s) && Later(s, n, phase)
    ensures InOrder(Locks(held, Marked(s, n, phase)))
  {
    forall a | 0 <= a < n && InLine(s.calls[a], s.calls[n].name) ensures s.calls[a].phase == Done {
      if phase == Running { BeforeDone(s, n, a); }
    }
  }

  lemma MarkedChained(s: Locks, n: nat, phase: Phase, held: map<string, nat>)
    requires Inv(s) && Later(s, n, phase)
    ensures Chained(Locks(held, Marked(s, n, phase)))
  {
    var calls := Marked(s, n, phase);
    forall b | 0 <= b < |calls| ensures ChainedAt(calls, b) {
      assert ChainedAt(s.calls, b);
      if b == n || calls[b].prev.None? {
        forall a | 0 <= a < b && InLine(calls[a], calls[b].name) && calls[b].prev.None? && calls[b].phase != Refused ensures calls[a].phase == Done {
          assert InLine(s.calls[a], s.calls[b].name);
        }
      }
    }
  }

  lemma StartKeeps(s: Locks, n: nat)
    requires Inv(s) && Enabled(s, Start(n))
    ensures Inv(Apply(s, Start(n)))
  {
    MarkedInOrder(s, n, Running, s.held);
    MarkedChained(s, n, Running, s.held);
    var calls := Marked(s, n, Running);
    forall a, name | 0 <= a < |calls| ensures InLine(calls[a], name) == InLine(s.calls[a], name) { }
  }

  lemma FinishTail(s: Locks, n: nat)
    requires Inv(s) && Enabled(s, Finish(n))
    ensures TailIsLast(Apply(s, Finish(n)))
  {
    var name, calls := s.calls[n].name, Marked(s, n, Done);
    forall a, m | 0 <= a < |calls| ensures InLine(calls[a], m) == InLine(s.calls[a], m) { }
    if s.held[name] == n {
      forall a | 0 <= a < |s.calls| && s.calls[a].name == name && a != n ensures s.calls[a].phase in {Done, Refused} {
        if a < n && s.calls[a].phase != Refused { assert InLine(s.calls[a], s.calls[n].name); }
        if a > n { assert !InLine(s.calls[a], name); }
      }
    }
  }

  lemma FinishKeeps(s: Locks, n: nat)
    requires Inv(s) && Enabled(s, Finish(n))
    ensures Inv(Apply(s, Finish(n)))
  {
    var held := Apply(s, Finish(n)).held;
    MarkedInOrder(s, n, Done, held);
    MarkedChained(s, n, Done, held);
    FinishTail(s, n);
  }

  lemma AskChained(s: Locks, c: Call, held: map<string, nat>)
    requires Inv(s) && ChainedAt(s.calls + [c], |s.calls|)
    ensures Chained(Locks(held, s.calls + [c]))
  {
    var calls := s.calls + [c];
    forall b | 0 <= b < |calls| ensures ChainedAt(calls, b) {
      if b < |s.calls| { assert ChainedAt(s.calls, b); }
    }
  }

  lemma AskKeeps(s: Locks, name: string, ifAvailable: bool)
    requires Inv(s)
    ensures Inv(Apply(s, Ask(name, ifAvailable)))
  {
    var t := Apply(s, Ask(name, ifAvailable));
    AskChained(s, t.calls[|s.calls|], t.held);
  }

  lemma StepKeeps(s: Locks, t: Locks, step: Step)
    requires Inv(s) && Goes(s, step, t)
    ensures Inv(t)
  {
    match step
    case Ask(name, ifAvailable) => AskKeeps(s, name, ifAvailable);
    case Start(n) => StartKeeps(s, n);
    case Finish(n) => FinishKeeps(s, n);
  }

  lemma {:induction false} LockInvariant(run: seq<Locks>, i: nat)
    requires IsRun(run) && i < |run|
    ensures Inv(run[i])
  {
    if i > 0 {
      LockInvariant(run, i - 1);
      assert Follows(run[i - 1], run[i]);
      var step :| Goes(run[i - 1], step, run[i]);
      StepKeeps(run[i - 1], run[i], step);
    }
  }

  /** Mutual exclusion in call order: while a call runs, every earlier call of its name is done and no other one runs. */
  lemma OneAtATime(run: seq<Locks>, i: nat, a: nat, b: nat)
    requires IsRun(run) && i < |run| && a < |run[i].calls| && b < |run[i].calls| && a != b
    requires run[i].calls[a].name == run[i].calls[b].name && run[i].calls[b].phase == Running
    ensures run[i].calls[a].phase != Running
    ensures a < b ==> run[i].calls[a].phase in {Done, Refused}
    ensures a > b ==> run[i].calls[a].phase in {Waiting, Refused}
  {
    LockInvariant(run, i);
    var s := run[i];
    if a < b && s.calls[a].phase != Refused { assert InLine(s.calls[a], s.calls[b].name); }
    if a > b { assert InLine(s.calls[b], s.calls[a].name); }
  }

  /** A call that would not wait is refused exactly when another one has the lock or waits for it. */
  lemma RefusedWhenTaken(run: seq<Locks>, i: nat, name: string)
    requires IsRun(run) && i < |run|
    ensures var s := run[i]; var t := Apply(s, Ask(name, true));
      t.calls[|s.calls|].phase == Refused <==> exists a :: 0 <= a < |s.calls| && s.calls[a].name == name && s.calls[a].phase in {Waiting, Running}
  {
    LockInvariant(run, i);
    var s := run[i];
    if name in s.held {
      assert s.calls[s.held[name]].phase in {Waiting, Running};
    }
  }

  /** Nobody waits for ever: while a call waits, one of its name runs or is free to start. */
  lemma SomeoneGoesOn(run: seq<Locks>, i: nat, n: nat) returns (m: nat)
    requires IsRun(run) && i < |run| && n < |run[i].calls| && run[i].calls[n].phase == Waiting
    ensures m <= n && run[i].calls[m].name == run[i].calls[n].name && (Enabled(run[i], Start(m)) || Enabled(run[i], Finish(m)))
  {
    LockInvariant(run, i);
    m := FirstUndone(run[i], n);
  }

  lemma {:induction false} FirstUndone(s: Locks, n: nat) returns (m: nat)
    requires Inv(s) && n < |s.calls| && s.calls[n].phase == Waiting
    ensures m <= n && s.calls[m].name == s.calls[n].name && (Enabled(s, Start(m)) || Enabled(s, Finish(m)))
  {
    assert ChainedAt(s.calls, n);
    var p := s.calls[n].prev.value;
    match s.calls[p].phase
    case Waiting => m := FirstUndone(s, p);
    case Running => m := p;
    case Done => m := n; DoneResolved(s, p);
  }

  lemma {:induction false} DoneResolved(s: Locks, n: nat)
    requires Inv(s) && n < |s.calls| && s.calls[n].phase == Done
    ensures Resolved(s, n)
  {
    assert ChainedAt(s.calls, n);
    if s.calls[n].prev.Some? {
      assert InLine(s.calls[s.calls[n].prev.value], s.calls[n].name);
      DoneResolved(s, s.calls[n].prev.value);
    }
  }
}
