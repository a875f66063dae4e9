/**
  * Renewing the session (Extension/src/auth.js): contexts share the stored tokens, and one at a time spends the
  * refresh token, which the server takes once. A step is what one context, or the server, does between two waits.
  */
module Sessions {
  import opened Lists
  import opened Changes

  datatype Result = Token(access: nat) | Expired | Unavailable

  /** A context's renewal; `known` holds the access tokens that had been stored when it was asked for. */
  datatype Renewal =
    | Waiting(failed: Option<nat>, known: set<nat>)
    | Sending(refresh: nat)
    | Accepted(access: nat, refresh: nat)
    | HalfSaved(access: nat)
    | Refused(spent: bool)
    | HalfCleared(spent: bool)
    | Settled(result: Result)

  /**
    * `refresh` and `access` are what is stored, `holder` the context with the renewal lock. The rest is the server
    * and history: `current` is the refresh token it takes (none when the session is over), `spent` those it
    * took, `refreshes` and `accesses` all it made, `stored` the access tokens ever stored, `sent` the refresh
    * tokens sent to it, and `adrift` those of requests nobody waits for any more: they may still reach it.
    */
  datatype State = State(refresh: Option<nat>, access: Option<nat>, holder: Option<string>, renewals: map<string, Renewal>,
    current: Option<nat>, spent: set<nat>, refreshes: set<nat>, accesses: set<nat>, stored: set<nat>, sent: seq<nat>, adrift: set<nat>)

  datatype Step =
    | Ask(c: string, failed: Option<nat>)
    | Enter(c: string, boundHere: bool)
    | Accept(c: string, access: nat, refresh: nat)
    | Refuse(c: string, spends: bool)
    | Pass(c: string)
    | SaveRefresh(c: string)
    | SaveAccess(c: string)
    | ClearAccess(c: string)
    | ClearRefresh(c: string)
    | Stop(c: string)
    | TakeLate(token: nat, access: nat, refresh: nat)
    | RefuseLate(token: nat)
    | Revoke
    | Wipe

  predicate Idle(s: State, c: string) {
    c !in s.renewals || s.renewals[c].Settled?
  }

  predicate Enabled(s: State, step: Step) {
    match step
    case Ask(c, failed) => failed.Some? ==> failed.value in s.stored
    case Enter(c, _) => c in s.renewals && s.renewals[c].Waiting? && s.holder == None
    case Accept(c, access, refresh) =>
      && c in s.renewals && s.renewals[c].Sending? && s.current == Some(s.renewals[c].refresh)
      && access !in s.accesses && refresh !in s.refreshes
    case Refuse(c, _) => c in s.renewals && s.renewals[c].Sending?
    case Pass(c) => c in s.renewals && s.renewals[c].Sending?
    case SaveRefresh(c) => c in s.renewals && s.renewals[c].Accepted?
    case SaveAccess(c) => c in s.renewals && s.renewals[c].HalfSaved?
    case ClearAccess(c) => c in s.renewals && s.renewals[c].Refused?
    case ClearRefresh(c) => c in s.renewals && s.renewals[c].HalfCleared?
    case Stop(c) => c in s.renewals
    case TakeLate(token, access, refresh) =>
      token in s.adrift && s.current == Some(token) && access !in s.accesses && refresh !in s.refreshes
    case RefuseLate(token) => token in s.adrift && s.current == Some(token)
    case Revoke => true
    case Wipe => true
  }

  function Going(s: State, c: string, r: Renewal): State {
    s.(renewals := s.renewals[c := r])
  }

  /** The renewal is over, and its lock free. */
  function Ending(s: State, c: string, result: Result): State {
    s.(renewals := s.renewals[c := Settled(result)], holder := None)
  }

  function Apply(s: State, step: Step): State
    requires Enabled(s, step)
  {
    match step
    // Callers in one context share its renewal.
    case Ask(c, failed) => if Idle(s, c) then Going(s, c, Waiting(failed, s.stored)) else s
    case Enter(c, boundHere) =>
      if s.refresh.None? || !boundHere then Ending(s, c, Expired)
      else if s.access.Some? && s.access != s.renewals[c].failed then Ending(s, c, Token(s.access.value))
      else Going(s, c, Sending(s.refresh.value)).(holder := Some(c), sent := s.sent + [s.refresh.value])
    case Accept(c, access, refresh) =>
      Going(s, c, Accepted(access, refresh)).(current := Some(refresh), spent := s.spent + {s.renewals[c].refresh},
        accesses := s.accesses + {access}, refreshes := s.refreshes + {refresh})
    // The server says the session is over; for an account turned off it has spent the token too.
    case Refuse(c, spends) =>
      Going(s, c, Refused(spends)).(current := None, spent := if spends then s.spent + {s.renewals[c].refresh} else s.spent)
    // Not the server's answer, or a passing problem: the request may still be on its way.
    case Pass(c) => Ending(s, c, Unavailable).(adrift := s.adrift + {s.renewals[c].refresh})
    case SaveRefresh(c) => Going(s, c, HalfSaved(s.renewals[c].access)).(refresh := Some(s.renewals[c].refresh))
    case SaveAccess(c) =>
      var a := s.renewals[c].access;
      Ending(s, c, Token(a)).(access := Some(a), stored := s.stored + {a})
    case ClearAccess(c) => Going(s, c, HalfCleared(s.renewals[c].spent)).(access := None)
    case ClearRefresh(c) => Ending(s, c, Expired).(refresh := None)
    // The tab is closed or the worker stopped, or the answer never comes: the lock is free.
    case Stop(c) =>
      s.(renewals := s.renewals - {c}, holder := if s.holder == Some(c) then None else s.holder,
         adrift := if s.renewals[c].Sending? then s.adrift + {s.renewals[c].refresh} else s.adrift)
    // The server takes a request nobody waits for, or refuses it and has spent its token too.
    case TakeLate(token, access, refresh) =>
      s.(current := Some(refresh), spent := s.spent + {token}, accesses := s.accesses + {access},
         refreshes := s.refreshes + {refresh}, adrift := s.adrift - {token})
    case RefuseLate(token) => s.(current := None, spent := s.spent + {token}, adrift := s.adrift - {token})
    // The server ends the session by itself.
    case Revoke => s.(current := None)
    // A browser restart empties the session storage.
    case Wipe => s.(access := None)
  }

  /** A renewal that has spent the stored refresh token, and has not yet replaced or removed it. */
  predicate Owes(r: Renewal) {
    r.Accepted? || (r.Refused? && r.spent) || (r.HalfCleared? && r.spent)
  }

  /** A token is spent, and the server's answer is lost: it came and was not stored, or nobody waits for it. */
  predicate Loses(s: State, step: Step) {
    step.TakeLate? || step.RefuseLate? || (step.Stop? && step.c in s.renewals && Owes(s.renewals[step.c]))
  }

  /** Signed in, nothing going on. */
  predicate IsStart(s: State) {
    && s.refresh.Some? && s.current == s.refresh && s.holder == None && s.renewals == map[] && s.spent == {} && s.sent == [] && s.adrift == {}
    && s.refresh.value in s.refreshes && s.stored <= s.accesses && (s.access.Some? ==> s.access.value in s.stored)
  }

  /** Where some steps lead, when each can be taken. */
  function TokensAfter(s: State, steps: seq<Step>): Option<State>
    decreases |steps|
  {
    if steps == [] then Some(s) else if Enabled(s, steps[0]) then TokensAfter(Apply(s, steps[0]), steps[1..]) else None
  }

  predicate Goes(s: State, step: Step, t: State) {
    Enabled(s, step) && t == Apply(s, step)
  }

  ghost predicate Heard(s: State, t: State) {
    exists step :: Goes(s, step, t) && !Loses(s, step)
  }

  /** A run in which no answer to a renewal is lost. */
  ghost predicate IsRun(run: seq<State>) {
    run != [] && IsStart(run[0]) && forall i :: 0 < i < |run| ==> Heard(run[i - 1], run[i])
  }

  /** What holds of one context's renewal. */
  predicate RenewalOk(s: State, c: string, r: Renewal) {
    match r
    case Waiting(failed, known) => known <= s.stored && (failed.Some? ==> failed.value in known)
    case Sending(refresh) => s.holder == Some(c) && s.refresh == Some(refresh) && refresh !in s.spent && refresh in s.refreshes
    case Accepted(access, refresh) =>
      && s.holder == Some(c) && refresh in s.refreshes && refresh !in s.spent && refresh !in s.adrift && access in s.accesses && access !in s.stored
      && (s.current.Some? ==> s.current == Some(refresh)) && s.refresh.Some? && s.refresh.value in s.spent
    case HalfSaved(access) => s.holder == Some(c) && access in s.accesses && access !in s.stored
    case Refused(spent) => s.holder == Some(c) && s.current == None && s.refresh.Some? && (spent <==> s.refresh.value in s.spent)
    case HalfCleared(spent) => s.holder == Some(c) && s.current == None && s.refresh.Some? && (spent <==> s.refresh.value in s.spent)
    case Settled(_) => true
  }

  predicate Holding(s: State, c: string) {
    c in s.renewals && !s.renewals[c].Waiting? && !s.renewals[c].Settled?
  }

  /** The stored refresh token is the server's, unspent, unless a renewal is about to replace it or the session is over. */
  predicate TokensOk(s: State) {
    && s.spent <= s.refreshes && s.adrift <= s.refreshes && s.stored <= s.accesses
    && (s.holder.Some? ==> Holding(s, s.holder.value))
    && (s.current.Some? ==> s.current.value in s.refreshes && s.current.value !in s.spent)
    && (s.access.Some? ==> s.access.value in s.stored)
    && (s.refresh.None? ==> s.current == None)
    && (s.refresh.Some? ==> s.refresh.value in s.refreshes)
    && (s.holder.None? || !Owes(s.renewals[s.holder.value]) ==>
          (s.refresh.Some? ==> s.refresh.value !in s.spent) && (s.current.Some? ==> s.refresh == s.current))
  }

  predicate Inv(s: State) {
    TokensOk(s) && forall c :: c in s.renewals ==> RenewalOk(s, c, s.renewals[c])
  }

  /** A step keeps the tokens right exactly when it doesn't lose the answer to a token it spends. */
  lemma StepKeeps(s: State, step: Step)
    requires Inv(s) && Enabled(s, step)
    ensures Inv(Apply(s, step)) <==> !Loses(s, step)
  {
    var t := Apply(s, step);
    if Loses(s, step) {
      if step.Stop? { assert RenewalOk(s, step.c, s.renewals[step.c]); } else { TakenAdrift(s, step.token); }
      assert !TokensOk(t);
    } else {
      TokensKept(s, step);
      forall c | c in t.renewals ensures RenewalOk(t, c, t.renewals[c]) {
        RenewalKept(s, step, c);
      }
    }
  }

  /** A token adrift that the server still takes is the stored one. */
  lemma TakenAdrift(s: State, token: nat)
    requires Inv(s) && token in s.adrift && s.current == Some(token)
    ensures s.refresh == Some(token) && (s.holder.Some? ==> !Owes(s.renewals[s.holder.value]))
  {
    if s.holder.Some? { assert RenewalOk(s, s.holder.value, s.renewals[s.holder.value]); }
  }

  lemma TokensKept(s: State, step: Step)
    requires Inv(s) && Enabled(s, step) && !Loses(s, step)
    ensures TokensOk(Apply(s, step))
  {
    if !step.TakeLate? && !step.RefuseLate? && !step.Revoke? && !step.Wipe? && step.c in s.renewals {
      assert RenewalOk(s, step.c, s.renewals[step.c]);
    }
  }

  lemma RenewalKept(s: State, step: Step, c: string)
    requires Inv(s) && Enabled(s, step) && !Loses(s, step) && c in Apply(s, step).renewals
    ensures RenewalOk(Apply(s, step), c, Apply(s, step).renewals[c])
  {
    if c in s.renewals { assert RenewalOk(s, c, s.renewals[c]); }
    if !step.TakeLate? && !step.RefuseLate? && !step.Revoke? && !step.Wipe? && step.c in s.renewals {
      assert RenewalOk(s, step.c, s.renewals[step.c]);
    }
  }

  lemma {:induction false} RunInvariant(run: seq<State>, i: nat)
    requires IsRun(run) && i < |run|
    ensures Inv(run[i])
  {
    if i > 0 {
      RunInvariant(run, i - 1);
      assert Heard(run[i - 1], run[i]);
      var step :| Goes(run[i - 1], step, run[i]) && !Loses(run[i - 1], step);
      StepKeeps(run[i - 1], step);
    }
  }

  /** What a step sends is a token the server has not taken yet. */
  lemma SentStep(s: State, step: Step) returns (more: seq<nat>)
    requires Inv(s) && Enabled(s, step)
    ensures s.spent <= Apply(s, step).spent
    ensures Apply(s, step).sent == s.sent + more && forall token :: token in more ==> token !in s.spent
  {
    more := if Apply(s, step).sent == s.sent then [] else [s.refresh.value];
  }

  lemma SentNext(run: seq<State>, j: nat) returns (more: seq<nat>)
    requires IsRun(run) && 0 < j < |run|
    ensures run[j - 1].spent <= run[j].spent
    ensures run[j].sent == run[j - 1].sent + more && forall token :: token in more ==> token !in run[j - 1].spent
  {
    RunInvariant(run, j - 1);
    assert Heard(run[j - 1], run[j]);
    var step :| Goes(run[j - 1], step, run[j]) && !Loses(run[j - 1], step);
    more := SentStep(run[j - 1], step);
  }

  /** A refresh token the server has taken is never sent again. */
  lemma {:induction false} NeverSentAgain(run: seq<State>, i: nat, j: nat, token: nat) returns (later: seq<nat>)
    requires IsRun(run) && i <= j < |run| && token in run[i].spent
    ensures token in run[j].spent && run[j].sent == run[i].sent + later && token !in later
    decreases j
  {
    later := [];
    if i < j {
      var before := NeverSentAgain(run, i, j - 1, token);
      var more := SentNext(run, j);
      later := before + more;
      GrownTwice(run[i].sent, run[j - 1].sent, run[j].sent, before, more);
    }
  }

  /** The tokens are removed only once the server has ended the session; while it goes on, what is stored is what it takes, but for a renewal under way. */
  lemma SignedOutOnlyByServer(run: seq<State>, i: nat)
    requires IsRun(run) && i < |run|
    ensures run[i].refresh.None? ==> run[i].current.None?
    ensures run[i].current.Some? && run[i].holder.None? ==> run[i].refresh == run[i].current
  {
    RunInvariant(run, i);
  }

  /** A renewal asked for before a new access token was stored takes that one, and asks the server nothing. */
  lemma WaitersShare(run: seq<State>, i: nat, j: nat, c: string)
    requires IsRun(run) && i <= j < |run| && c in run[i].renewals && c in run[j].renewals && run[i].renewals[c] == run[j].renewals[c]
    requires Enabled(run[j], Enter(c, true)) && run[j].refresh.Some?
    requires run[j].access.Some? && run[j].access.value !in run[i].stored
    ensures var t := Apply(run[j], Enter(c, true));
      t.renewals[c] == Settled(Token(run[j].access.value)) && t.sent == run[j].sent && t.holder == None
  {
    RunInvariant(run, i);
    assert RenewalOk(run[i], c, run[i].renewals[c]);
  }

  /** At most one renewal is past its lock. */
  lemma OneRenewal(run: seq<State>, i: nat, c: string, d: string)
    requires IsRun(run) && i < |run| && Holding(run[i], c) && Holding(run[i], d)
    ensures c == d
  {
    RunInvariant(run, i);
    assert RenewalOk(run[i], c, run[i].renewals[c]) && RenewalOk(run[i], d, run[i].renewals[d]);
  }

  /** Whatever stopped where, as long as no answer was lost, a session that goes on can be renewed. */
  lemma StillRenews(run: seq<State>, i: nat, c: string, access: nat, refresh: nat)
    requires IsRun(run) && i < |run| && run[i].holder == None && run[i].current.Some? && Idle(run[i], c)
    requires access !in run[i].accesses && refresh !in run[i].refreshes
    ensures var end := TokensAfter(run[i], [Ask(c, run[i].access), Enter(c, true), Accept(c, access, refresh), SaveRefresh(c), SaveAccess(c)]);
      end.Some? && c in end.value.renewals && end.value.renewals[c] == Settled(Token(access))
      && end.value.access == Some(access) && end.value.refresh == end.value.current == Some(refresh)
  {
    RunInvariant(run, i);
    var s1 := Apply(run[i], Ask(c, run[i].access));
    var s2 := Apply(s1, Enter(c, true));
    var s3 := Apply(s2, Accept(c, access, refresh));
    var s4 := Apply(s3, SaveRefresh(c));
    assert TokensAfter(s4, [SaveAccess(c)]) == TokensAfter(Apply(s4, SaveAccess(c)), []);
    assert TokensAfter(s3, [SaveRefresh(c), SaveAccess(c)]) == TokensAfter(s4, [SaveAccess(c)]);
    assert TokensAfter(s2, [Accept(c, access, refresh), SaveRefresh(c), SaveAccess(c)]) == TokensAfter(s3, [SaveRefresh(c), SaveAccess(c)]);
    assert TokensAfter(s1, [Enter(c, true), Accept(c, access, refresh), SaveRefresh(c), SaveAccess(c)])
        == TokensAfter(s2, [Accept(c, access, refresh), SaveRefresh(c), SaveAccess(c)]);
  }

  /** Lost, the spent token stays stored, and the next renewal that must ask sends it again. */
  lemma LostAnswerSendsAgain(s: State, c: string, d: string, failed: Option<nat>)
    requires Inv(s) && Loses(s, Stop(c)) && d != c && d in s.renewals && s.renewals[d].Waiting? && s.access in {None, s.renewals[d].failed}
    ensures var end := TokensAfter(s, [Stop(c), Enter(d, true)]);
      end.Some? && end.value.sent == s.sent + [s.refresh.value] && s.refresh.value in end.value.spent
  {
    assert RenewalOk(s, c, s.renewals[c]);
    var t := Apply(s, Stop(c));
    assert TokensAfter(t, [Enter(d, true)]) == TokensAfter(Apply(t, Enter(d, true)), []);
  }

  /** And so does one the server takes after nobody waits for its answer. */
  lemma TakenLateSendsAgain(s: State, token: nat, access: nat, refresh: nat, d: string)
    requires Inv(s) && Enabled(s, TakeLate(token, access, refresh)) && s.holder == None
    requires d in s.renewals && s.renewals[d].Waiting? && s.access in {None, s.renewals[d].failed}
    ensures var end := TokensAfter(s, [TakeLate(token, access, refresh), Enter(d, true)]);
      end.Some? && end.value.sent == s.sent + [token] && token in end.value.spent
  {
    TakenAdrift(s, token);
    var t := Apply(s, TakeLate(token, access, refresh));
    assert TokensAfter(t, [Enter(d, true)]) == TokensAfter(Apply(t, Enter(d, true)), []);
  }
}
