/** Mentions in a text being written, and in one shown (Extension/src/mentions.js). `isName` tells the characters of names. */
module Mentions {
  import opened Changes
  import Tags

  type NameChars = char -> bool

  /** The characters mentions turn on are no part of a name. */
  predicate Sane(isName: NameChars) {
    !isName('@') && !isName(' ') && !isName('.') && !isName('-')
  }

  datatype Token = Text(value: string) | Mention(value: string, username: string)

  predicate IsJoiner(c: char) {
    c == '.' || c == '-'
  }

  predicate InName(isName: NameChars, c: char) {
    isName(c) || IsJoiner(c)
  }

  /** May a mention start at this '@'? Not when glued to a word, a dot, a hyphen or another '@'. */
  predicate StartsMention(isName: NameChars, text: string, at: nat)
    requires at <= |text|
  {
    at == 0 || !(InName(isName, text[at - 1]) || text[at - 1] == '@')
  }

  /** Does a name that ends here stop at a boundary? */
  predicate EndsWord(isName: NameChars, text: string, end: nat) {
    || end >= |text|
    || (!isName(text[end]) && (IsJoiner(text[end]) ==> end + 1 >= |text| || !isName(text[end + 1])))
  }

  // ---- Writing ------------------------------------------------------------------------------------

  /** The caret is in a mention being typed, whose '@' is at `start`. */
  predicate Detected(isName: NameChars, text: string, caret: nat, start: nat) {
    && start < caret <= |text| && text[start] == '@' && StartsMention(isName, text, start)
    && forall i :: start < i < caret ==> InName(isName, text[i])
  }

  function Clamp(caret: int, text: string): nat {
    if caret < 0 then 0 else if caret > |text| then |text| else caret
  }

  /** The mention being typed at the caret: what is typed of it, and where it starts. */
  method DetectMention(isName: NameChars, text: string, caret: int) returns (found: Option<(string, nat)>)
    requires Sane(isName)
    ensures found.Some? ==>
      Detected(isName, text, Clamp(caret, text), found.value.1) && found.value.0 == text[found.value.1 + 1..Clamp(caret, text)]
    ensures found.None? ==> forall start: nat :: !Detected(isName, text, Clamp(caret, text), start)
  {
    var end := Clamp(caret, text);
    var at: nat := end;
    while at > 0 && InName(isName, text[at - 1])
      invariant at <= end && forall i :: at <= i < end ==> InName(isName, text[i])
    {
      at := at - 1;
    }
    if at == 0 || text[at - 1] != '@' || !StartsMention(isName, text, at - 1) {
      forall start: nat | start < at - 1 ensures !Detected(isName, text, end, start) { assert !InName(isName, text[at - 1]); }
      return None;
    }
    return Some((text[at..end], at - 1));
  }

  /** The text with the person picked, and the caret after them. */
  function ApplyMention(text: string, start: nat, username: string, caret: nat): (string, nat)
    requires start <= caret <= |text|
  {
    (text[..start] + ("@" + username + " ") + text[caret..], start + |username| + 2)
  }

  // ---- Showing ------------------------------------------------------------------------------------

  predicate Matches(isName: NameChars, body: string, start: nat, name: string) {
    && start + |name| <= |body| && Tags.Lower(body[start..start + |name|]) == Tags.Lower(name)
    && EndsWord(isName, body, start + |name|)
  }

  function Insert(name: string, names: seq<string>): seq<string> {
    if names == [] || |names[0]| <= |name| then [name] + names else [names[0]] + Insert(name, names[1..])
  }

  /** The names that aren't empty, longest first. */
  function ByLength(usernames: seq<string>): seq<string> {
    if usernames == [] then []
    else if usernames[0] == "" then ByLength(usernames[1..])
    else Insert(usernames[0], ByLength(usernames[1..]))
  }

  predicate LongestFirst(names: seq<string>) {
    forall a, b :: 0 <= a < b < |names| ==> |names[a]| >= |names[b]|
  }

  lemma {:induction false} InsertIs(name: string, names: seq<string>)
    requires LongestFirst(names)
    ensures LongestFirst(Insert(name, names))
    ensures forall x :: x in Insert(name, names) <==> x == name || x in names
  {
    if names != [] && |names[0]| > |name| {
      InsertIs(name, names[1..]);
      assert names == [names[0]] + names[1..];
      var rest := Insert(name, names[1..]);
      forall b | 0 <= b < |rest| ensures |names[0]| >= |rest[b]| {
        assert rest[b] in rest;
        if rest[b] != name { assert rest[b] in names[1..]; }
      }
    }
  }

  lemma {:induction false} ByLengthIs(usernames: seq<string>)
    ensures LongestFirst(ByLength(usernames))
    ensures forall x :: x in ByLength(usernames) <==> x in usernames && x != ""
  {
    if usernames != [] {
      ByLengthIs(usernames[1..]);
      assert usernames == [usernames[0]] + usernames[1..];
      if usernames[0] != "" { InsertIs(usernames[0], ByLength(usernames[1..])); }
    }
  }

  function FirstMatch(isName: NameChars, body: string, start: nat, names: seq<string>): Option<string> {
    if names == [] then None
    else if Matches(isName, body, start, names[0]) then Some(names[0])
    else FirstMatch(isName, body, start, names[1..])
  }

  lemma {:induction false} FirstMatchIs(isName: NameChars, body: string, start: nat, names: seq<string>)
    requires LongestFirst(names)
    ensures var m := FirstMatch(isName, body, start, names);
      && (m.Some? ==> m.value in names && Matches(isName, body, start, m.value))
      && (m.Some? ==> forall x :: x in names && Matches(isName, body, start, x) ==> |x| <= |m.value|)
      && (m.None? ==> forall x :: x in names ==> !Matches(isName, body, start, x))
  {
    if names != [] {
      assert names == [names[0]] + names[1..];
      FirstMatchIs(isName, body, start, names[1..]);
    }
  }

  /** The end of the run of name characters and joiners from here. */
  function RunEnd(isName: NameChars, body: string, at: nat): (end: nat)
    requires at <= |body|
    ensures at <= end <= |body| && (end == |body| || !InName(isName, body[end]))
    ensures forall i :: at <= i < end ==> InName(isName, body[i])
    decreases |body| - at
  {
    if at < |body| && InName(isName, body[at]) then RunEnd(isName, body, at + 1) else at
  }

  /** The same, without its last joiners. */
  function TrimEnd(body: string, start: nat, end: nat): (e: nat)
    requires start < end <= |body| && !IsJoiner(body[start])
    ensures start < e <= end && !IsJoiner(body[e - 1]) && forall i :: e <= i < end ==> IsJoiner(body[i])
  {
    if IsJoiner(body[end - 1]) then TrimEnd(body, start, end - 1) else end
  }

  /** The name marked after an '@': the longest listed one that matches, or, without a list, what is shaped like a name. */
  function Chosen(isName: NameChars, body: string, start: nat, usernames: Option<seq<string>>): Option<string>
    requires Sane(isName)
  {
    if usernames.Some? then FirstMatch(isName, body, start, ByLength(usernames.value))
    else if start < |body| && isName(body[start]) then Some(body[start..TrimEnd(body, start, RunEnd(isName, body, start))])
    else None
  }

  lemma ChosenIs(isName: NameChars, body: string, start: nat, usernames: Option<seq<string>>)
    requires Sane(isName)
    ensures var u := Chosen(isName, body, start, usernames);
      && (u.Some? ==> u.value != "" && start + |u.value| <= |body| && Tags.Lower(body[start..start + |u.value|]) == Tags.Lower(u.value))
      && (usernames.Some? && u.Some? ==> u.value in usernames.value && Matches(isName, body, start, u.value))
      && (usernames.Some? && u.Some? ==> forall x :: x in usernames.value && Matches(isName, body, start, x) ==> |x| <= |u.value|)
      && (usernames.Some? && u.None? ==> forall x :: x in usernames.value && x != "" ==> !Matches(isName, body, start, x))
  {
    if usernames.Some? {
      ByLengthIs(usernames.value);
      FirstMatchIs(isName, body, start, ByLength(usernames.value));
    }
  }

  /** The name a mention at each place would be marked with. */
  type Marks = nat -> Option<string>

  function MarksOf(isName: NameChars, body: string, usernames: Option<seq<string>>): Marks
    requires Sane(isName)
  {
    (at: nat) =>
      if at < |body| && body[at] == '@' && StartsMention(isName, body, at) then Chosen(isName, body, at + 1, usernames) else None
  }

  /** A mark is at an '@', and its name is in the text. */
  ghost predicate Fit(body: string, marks: Marks) {
    forall at: nat :: marks(at).Some? ==> at < |body| && body[at] == '@' && at + 1 + |marks(at).value| <= |body|
  }

  lemma MarksFit(isName: NameChars, body: string, usernames: Option<seq<string>>)
    requires Sane(isName)
    ensures Fit(body, MarksOf(isName, body, usernames))
  {
    forall at: nat | MarksOf(isName, body, usernames)(at).Some? ensures at + 1 + |MarksOf(isName, body, usernames)(at).value| <= |body| {
      ChosenIs(isName, body, at + 1, usernames);
    }
  }

  function TextBetween(body: string, last: nat, at: nat): (tokens: seq<Token>)
    requires at <= |body|
  {
    if at > last then [Text(body[last..at])] else []
  }

  function MentionAt(body: string, at: nat, username: string): Token
    requires at + 1 + |username| <= |body|
  {
    Mention(body[at..at + 1 + |username|], username)
  }

  /** The tokens from `last` on, looking for mentions from `at` on. */
  ghost function TokensFrom(body: string, marks: Marks, last: nat, at: nat): seq<Token>
    requires Fit(body, marks) && at <= |body|
    decreases |body| - at
  {
    if at == |body| then TextBetween(body, last, at)
    else if at < last || marks(at).None? then TokensFrom(body, marks, last, at + 1)
    else
      var end := at + 1 + |marks(at).value|;
      TextBetween(body, last, at) + ([MentionAt(body, at, marks(at).value)] + TokensFrom(body, marks, end, at + 1))
  }

  /** A text's tokens. */
  ghost function Tokens(isName: NameChars, body: string, usernames: Option<seq<string>>): seq<Token>
    requires Sane(isName)
  {
    MarksFit(isName, body, usernames);
    TokensFrom(body, MarksOf(isName, body, usernames), 0, 0)
  }

  /** The next '@' from here, or the text's length. */
  method IndexOfAt(body: string, from: nat) returns (at: nat)
    requires from <= |body|
    ensures from <= at <= |body| && (at < |body| ==> body[at] == '@') && forall i :: from <= i < at ==> body[i] != '@'
  {
    at := from;
    while at < |body| && body[at] != '@'
      invariant from <= at <= |body| && forall i :: from <= i < at ==> body[i] != '@'
    {
      at := at + 1;
    }
  }

  lemma {:induction false} SkipTo(body: string, marks: Marks, last: nat, from: nat, at: nat)
    requires Fit(body, marks) && from <= at <= |body| && forall i :: from <= i < at ==> body[i] != '@'
    ensures TokensFrom(body, marks, last, from) == TokensFrom(body, marks, last, at)
    decreases at - from
  {
    if from < at { SkipTo(body, marks, last, from + 1, at); }
  }

  /** One more token or two, or none. */
  lemma OneMore(done: seq<Token>, body: string, marks: Marks, last: nat, at: nat)
    requires Fit(body, marks) && at < |body|
    ensures at < last || marks(at).None? ==> TokensFrom(body, marks, last, at) == TokensFrom(body, marks, last, at + 1)
    ensures at >= last && marks(at).Some? ==>
      done + TokensFrom(body, marks, last, at)
      == done + TextBetween(body, last, at) + [MentionAt(body, at, marks(at).value)] + TokensFrom(body, marks, at + 1 + |marks(at).value|, at + 1)
  {
    if at >= last && marks(at).Some? {
      var a, t, rest := TextBetween(body, last, at), [MentionAt(body, at, marks(at).value)], TokensFrom(body, marks, at + 1 + |marks(at).value|, at + 1);
      assert TokensFrom(body, marks, last, at) == a + (t + rest);
      assert done + (a + (t + rest)) == done + a + t + rest;
    }
  }

  /** The walk over a text's '@'s. */
  method SplitText(body: string, marks: Marks) returns (tokens: seq<Token>)
    requires Fit(body, marks)
    ensures tokens == TokensFrom(body, marks, 0, 0)
  {
    tokens := [];
    var last: nat := 0;
    var at := IndexOfAt(body, 0);
    SkipTo(body, marks, 0, 0, at);
    assert tokens + TokensFrom(body, marks, 0, at) == TokensFrom(body, marks, 0, at);
    while at < |body|
      invariant at <= |body| && tokens + TokensFrom(body, marks, last, at) == TokensFrom(body, marks, 0, 0)
      decreases |body| - at
    {
      OneMore(tokens, body, marks, last, at);
      var username := marks(at);
      if at >= last && username.Some? {
        tokens := tokens + TextBetween(body, last, at) + [MentionAt(body, at, username.value)];
        last := at + 1 + |username.value|;
      }
      var next := IndexOfAt(body, at + 1);
      SkipTo(body, marks, last, at + 1, next);
      at := next;
    }
    tokens := tokens + TextBetween(body, last, |body|);
  }

  /** Split a text into plain text and mentions. */
  method TokenizeMentions(isName: NameChars, body: string, usernames: Option<seq<string>>) returns (tokens: seq<Token>)
    requires Sane(isName)
    ensures tokens == Tokens(isName, body, usernames)
  {
    MarksFit(isName, body, usernames);
    tokens := SplitText(body, MarksOf(isName, body, usernames));
  }

  // ---- What the tokens are ------------------------------------------------------------------------

  function Joined(tokens: seq<Token>): string {
    if tokens == [] then "" else tokens[0].value + Joined(tokens[1..])
  }

  lemma JoinedBetween(body: string, last: nat, at: nat, rest: seq<Token>)
    requires at <= |body|
    ensures Joined(TextBetween(body, last, at) + rest) == (if last < at then body[last..at] else "") + Joined(rest)
  {
    if at > last {
      assert ([Text(body[last..at])] + rest)[1..] == rest;
    } else {
      assert [] + rest == rest;
    }
  }

  lemma JoinedCons(t: Token, rest: seq<Token>)
    ensures Joined([t] + rest) == Joined([t]) + Joined(rest)
  {
    assert ([t] + rest)[1..] == rest;
  }

  lemma Pieces(body: string, last: nat, at: nat, end: nat)
    requires last <= at <= end <= |body|
    ensures body[last..] == (if last < at then body[last..at] else "") + (body[at..end] + body[end..])
  {
  }

  /** The tokens together are the text. */
  lemma {:induction false} TokensJoin(body: string, marks: Marks, last: nat, at: nat)
    requires Fit(body, marks) && at <= |body| && last <= |body|
    ensures Joined(TokensFrom(body, marks, last, at)) == body[last..]
    decreases |body| - at
  {
    if at == |body| {
      JoinedBetween(body, last, at, []);
      assert TextBetween(body, last, at) + [] == TextBetween(body, last, at);
    } else if at < last || marks(at).None? {
      TokensJoin(body, marks, last, at + 1);
    } else {
      var t, end := MentionAt(body, at, marks(at).value), at + 1 + |marks(at).value|;
      var rest := TokensFrom(body, marks, end, at + 1);
      assert TokensFrom(body, marks, last, at) == TextBetween(body, last, at) + ([t] + rest);
      TokensJoin(body, marks, end, at + 1);
      JoinedBetween(body, last, at, [t] + rest);
      JoinedCons(t, rest);
      Pieces(body, last, at, end);
    }
  }

  /** No empty text, no two texts side by side. */
  predicate Neat(tokens: seq<Token>) {
    && (forall n :: 0 <= n < |tokens| ==> tokens[n].value != "")
    && (forall n :: 0 < n < |tokens| ==> tokens[n - 1].Mention? || tokens[n].Mention?)
  }

  lemma {:induction false} TokensNeat(body: string, marks: Marks, last: nat, at: nat)
    requires Fit(body, marks) && at <= |body|
    ensures Neat(TokensFrom(body, marks, last, at))
    decreases |body| - at
  {
    if at < |body| {
      if at < last || marks(at).None? {
        TokensNeat(body, marks, last, at + 1);
      } else {
        var end := at + 1 + |marks(at).value|;
        TokensNeat(body, marks, end, at + 1);
        assert TokensFrom(body, marks, last, at)
            == TextBetween(body, last, at) + ([MentionAt(body, at, marks(at).value)] + TokensFrom(body, marks, end, at + 1));
        NeatAround(TextBetween(body, last, at), MentionAt(body, at, marks(at).value), TokensFrom(body, marks, end, at + 1));
      }
    }
  }

  lemma NeatAround(a: seq<Token>, t: Token, rest: seq<Token>)
    requires Neat(rest) && t.Mention? && t.value != "" && (a == [] || (|a| == 1 && a[0].value != ""))
    ensures Neat(a + ([t] + rest))
  {
  }

  /** Where a text's tokens say mentions are: their place and name. */
  function MentionsIn(tokens: seq<Token>, from: nat): seq<(nat, string)> {
    if tokens == [] then []
    else
      var rest := MentionsIn(tokens[1..], from + |tokens[0].value|);
      if tokens[0].Mention? then [(from, tokens[0].username)] + rest else rest
  }

  /** The marks from `at` on, each the first that no mention before it reaches over. */
  ghost function Picked(body: string, marks: Marks, last: nat, at: nat): seq<(nat, string)>
    requires Fit(body, marks) && at <= |body|
    decreases |body| - at
  {
    if at == |body| then []
    else if at < last || marks(at).None? then Picked(body, marks, last, at + 1)
    else [(at, marks(at).value)] + Picked(body, marks, at + 1 + |marks(at).value|, at + 1)
  }

  lemma MentionsAround(body: string, last: nat, at: nat, t: Token, rest: seq<Token>)
    requires last <= at <= |body| && t.Mention?
    ensures MentionsIn(TextBetween(body, last, at) + ([t] + rest), last) == [(at, t.username)] + MentionsIn(rest, at + |t.value|)
  {
    assert ([t] + rest)[1..] == rest;
    if at > last {
      assert (TextBetween(body, last, at) + ([t] + rest))[1..] == [t] + rest;
    } else {
      assert TextBetween(body, last, at) + ([t] + rest) == [t] + rest;
    }
  }

  lemma NoneInText(body: string, last: nat, at: nat)
    requires at <= |body|
    ensures MentionsIn(TextBetween(body, last, at), last) == []
  {
    if at > last { assert TextBetween(body, last, at)[1..] == []; }
  }

  /** The mentions the tokens show are those marks. */
  lemma {:induction false} TokensShow(body: string, marks: Marks, last: nat, at: nat)
    requires Fit(body, marks) && at <= |body| && last <= |body|
    ensures MentionsIn(TokensFrom(body, marks, last, at), last) == Picked(body, marks, last, at)
    decreases |body| - at
  {
    if at == |body| {
      NoneInText(body, last, at);
    } else if at < last || marks(at).None? {
      TokensShow(body, marks, last, at + 1);
    } else {
      var t, end := MentionAt(body, at, marks(at).value), at + 1 + |marks(at).value|;
      TokensShow(body, marks, end, at + 1);
      assert TokensFrom(body, marks, last, at) == TextBetween(body, last, at) + ([t] + TokensFrom(body, marks, end, at + 1));
      MentionsAround(body, last, at, t, TokensFrom(body, marks, end, at + 1));
    }
  }

  /** A mention marked is a mark: a mark is left out exactly when a mention marked before it reaches over it. */
  lemma {:induction false} PickedIs(body: string, marks: Marks, last: nat, at: nat, p: nat)
    requires Fit(body, marks) && at <= p < |body| && marks(p).Some?
    ensures (p, marks(p).value) in Picked(body, marks, last, at) <==>
      p >= last && forall m :: m in Picked(body, marks, last, at) && m.0 < p ==> m.0 + 1 + |m.1| <= p
    ensures forall m :: m in Picked(body, marks, last, at) ==> m.0 >= at && m.0 >= last && marks(m.0) == Some(m.1)
    decreases |body| - at
  {
    if at < last || marks(at).None? {
      if at < p { PickedIs(body, marks, last, at + 1, p); } else { PickedFrom(body, marks, last, at + 1); }
    } else {
      var end := at + 1 + |marks(at).value|;
      if at < p {
        PickedIs(body, marks, end, at + 1, p);
        assert (at, marks(at).value) in Picked(body, marks, last, at);
      } else {
        PickedFrom(body, marks, end, at + 1);
      }
    }
  }

  lemma {:induction false} PickedFrom(body: string, marks: Marks, last: nat, at: nat)
    requires Fit(body, marks) && at <= |body|
    ensures forall m :: m in Picked(body, marks, last, at) ==> m.0 >= at && m.0 >= last && marks(m.0) == Some(m.1)
    decreases |body| - at
  {
    if at < |body| {
      if at < last || marks(at).None? { PickedFrom(body, marks, last, at + 1); } else { PickedFrom(body, marks, at + 1 + |marks(at).value|, at + 1); }
    }
  }

  // ---- From the menu to the text shown ------------------------------------------------------------

  /** A username as people have: name characters, joined by single dots and hyphens or more. */
  predicate NameShaped(isName: NameChars, u: string) {
    u != "" && isName(u[0]) && isName(u[|u| - 1]) && forall i :: 0 <= i < |u| ==> InName(isName, u[i])
  }

  /** What matches a name in any case has its '@'s and spaces. */
  lemma LowerAt(u: string, shown: string, n: nat)
    requires Tags.Lower(shown) == Tags.Lower(u) && n < |u| && shown[n] in {'@', ' '}
    ensures shown[n] in u
  {
    assert Tags.Lower(shown)[n] == shown[n];
    assert Tags.Lower(u)[n] == Tags.LowerChar(u[n]);
    assert u[n] == shown[n];
  }

  /** A mark in a list of names shaped like names covers only characters of names. */
  lemma ListedCovers(isName: NameChars, body: string, usernames: seq<string>, start: nat)
    requires Sane(isName) && Chosen(isName, body, start, Some(usernames)).Some?
    requires forall u, c :: u in usernames && c in u ==> InName(isName, c)
    ensures var u := Chosen(isName, body, start, Some(usernames)).value;
      start + |u| <= |body| && forall i :: start <= i < start + |u| ==> body[i] !in {'@', ' '}
  {
    ChosenIs(isName, body, start, Some(usernames));
    var u := Chosen(isName, body, start, Some(usernames)).value;
    var shown := body[start..start + |u|];
    forall i | start <= i < start + |u| ensures body[i] !in {'@', ' '} {
      assert shown[i - start] == body[i];
      if body[i] in {'@', ' '} { LowerAt(u, shown, i - start); }
    }
  }

  lemma ShapedCovers(isName: NameChars, body: string, start: nat)
    requires Sane(isName) && Chosen(isName, body, start, None).Some?
    ensures var u := Chosen(isName, body, start, None).value;
      start + |u| <= |body| && forall i :: start <= i < start + |u| ==> body[i] !in {'@', ' '}
  {
    forall i | start <= i < RunEnd(isName, body, start) ensures body[i] !in {'@', ' '} {
      assert InName(isName, body[i]);
    }
  }

  /** A marked name never reaches over the next '@'. */
  lemma NeverOver(isName: NameChars, body: string, usernames: Option<seq<string>>, q: nat, p: nat)
    requires Sane(isName) && q < p < |body| && body[p] == '@' && MarksOf(isName, body, usernames)(q).Some?
    requires usernames.Some? ==> forall u, c :: u in usernames.value && c in u ==> InName(isName, c)
    ensures q + 1 + |MarksOf(isName, body, usernames)(q).value| <= p
  {
    if usernames.Some? { ListedCovers(isName, body, usernames.value, q + 1); } else { ShapedCovers(isName, body, q + 1); }
  }

  /** The person picked is the one chosen, in any case the list writes them. */
  lemma ListedChosen(isName: NameChars, shown: string, start: nat, username: string, usernames: seq<string>)
    requires Sane(isName) && username != "" && username in usernames && start + |username| < |shown|
    requires shown[start..start + |username|] == username && shown[start + |username|] == ' '
    requires forall u, c :: u in usernames && c in u ==> InName(isName, c)
    ensures var u := Chosen(isName, shown, start, Some(usernames));
      u.Some? && |u.value| == |username| && Tags.Lower(u.value) == Tags.Lower(username)
  {
    ChosenIs(isName, shown, start, Some(usernames));
    assert Matches(isName, shown, start, username);
    ListedCovers(isName, shown, usernames, start);
  }

  lemma ShapedChosen(isName: NameChars, shown: string, start: nat, username: string)
    requires Sane(isName) && NameShaped(isName, username) && start + |username| < |shown|
    requires shown[start..start + |username|] == username && shown[start + |username|] == ' '
    ensures Chosen(isName, shown, start, None) == Some(username)
  {
    var end := start + |username|;
    forall i | start <= i < end ensures InName(isName, shown[i]) { assert shown[i] == username[i - start]; }
    assert shown[start] == username[0] && shown[end - 1] == username[|username| - 1];
    RunTo(isName, shown, start, end);
  }

  /** The text after the pick, piece by piece. */
  lemma ApplyIs(text: string, start: nat, username: string, caret: nat)
    requires start <= caret <= |text|
    ensures var (shown, after) := ApplyMention(text, start, username, caret); var end := start + 1 + |username|;
      && after == end + 1 <= |shown| && shown[..start] == text[..start] && shown[start] == '@'
      && shown[start + 1..end] == username && shown[start..end] == "@" + username && shown[end] == ' ' && shown[after..] == text[caret..]
  {
  }

  /** Picking a person marks them where the mention was typed, in any case the list writes them, and ends the typing. */
  lemma PickedIsMarked(isName: NameChars, text: string, caret: nat, start: nat, username: string, usernames: Option<seq<string>>)
    returns (marked: string)
    requires Sane(isName) && Detected(isName, text, caret, start) && NameShaped(isName, username)
    requires usernames.Some? ==> username in usernames.value && forall u, c :: u in usernames.value && c in u ==> InName(isName, c)
    ensures Tags.Lower(marked) == Tags.Lower(username) && (usernames.None? ==> marked == username)
    ensures var (shown, after) := ApplyMention(text, start, username, caret);
      && (start, marked) in MentionsIn(Tokens(isName, shown, usernames), 0)
      && shown[..start] == text[..start] && shown[after..] == text[caret..] && forall s: nat :: !Detected(isName, shown, after, s)
  {
    var (shown, after) := ApplyMention(text, start, username, caret);
    ApplyIs(text, start, username, caret);
    if start > 0 { assert shown[..start][start - 1] == text[..start][start - 1]; }
    if usernames.Some? {
      ListedChosen(isName, shown, start + 1, username, usernames.value);
    } else {
      ShapedChosen(isName, shown, start + 1, username);
    }
    var marks := MarksOf(isName, shown, usernames);
    marked := marks(start).value;
    MarksFit(isName, shown, usernames);
    PickedFrom(shown, marks, 0, 0);
    forall m | m in Picked(shown, marks, 0, 0) && m.0 < start ensures m.0 + 1 + |m.1| <= start {
      NeverOver(isName, shown, usernames, m.0, start);
    }
    PickedIs(shown, marks, 0, 0, start);
    TokensShow(shown, marks, 0, 0);
    NotTyping(isName, shown, after);
  }

  lemma NotTyping(isName: NameChars, shown: string, caret: nat)
    requires Sane(isName) && 0 < caret <= |shown| && shown[caret - 1] == ' '
    ensures forall s: nat :: !Detected(isName, shown, caret, s)
  {
    assert !InName(isName, shown[caret - 1]);
  }

  /**
    * A text's tokens: together the text, no empty text, no two side by side; each mention at an '@' that follows no
    * name character, '.', '-' or '@', under the name chosen there.
    */
  lemma TokensAre(isName: NameChars, body: string, usernames: Option<seq<string>>)
    requires Sane(isName)
    ensures var tokens := Tokens(isName, body, usernames);
      && Joined(tokens) == body && Neat(tokens)
      && forall m :: m in MentionsIn(tokens, 0) ==>
           m.0 < |body| && body[m.0] == '@' && Chosen(isName, body, m.0 + 1, usernames) == Some(m.1)
           && (m.0 > 0 ==> !isName(body[m.0 - 1]) && body[m.0 - 1] !in {'.', '-', '@'})
  {
    var marks := MarksOf(isName, body, usernames);
    MarksFit(isName, body, usernames);
    TokensJoin(body, marks, 0, 0);
    TokensNeat(body, marks, 0, 0);
    TokensShow(body, marks, 0, 0);
    PickedFrom(body, marks, 0, 0);
  }

  // ---- With a list of names, or without -----------------------------------------------------------

  /** Names are told in any case. */
  ghost predicate AnyCase(isName: NameChars) {
    forall c :: isName(c) <==> isName(Tags.LowerChar(c))
  }

  /** What is shaped like a name ends where a listed name may end: a list with it marks it, or a longer one. */
  lemma ShapedMatches(isName: NameChars, body: string, start: nat)
    requires Sane(isName) && Chosen(isName, body, start, None).Some?
    ensures Matches(isName, body, start, Chosen(isName, body, start, None).value)
  {
    var run := RunEnd(isName, body, start);
    var end := TrimEnd(body, start, run);
    assert Chosen(isName, body, start, None).value == body[start..end];
    if end < run { assert IsJoiner(body[end]); }
    if end + 1 < run { assert IsJoiner(body[end + 1]); }
  }

  /** A listed name that matches is all of what is shaped like a name there, unless two joiners follow each other. */
  lemma MatchIsShaped(isName: NameChars, body: string, start: nat, u: string)
    requires Sane(isName) && AnyCase(isName) && NameShaped(isName, u) && Matches(isName, body, start, u)
    requires forall i :: start <= i < |body| - 1 ==> !(IsJoiner(body[i]) && IsJoiner(body[i + 1]))
    ensures Chosen(isName, body, start, None) == Some(body[start..start + |u|])
  {
    var end := start + |u|;
    forall i | start <= i < end ensures isName(body[i]) == isName(u[i - start]) && InName(isName, body[i]) {
      SameLetter(isName, body[start..end], u, i - start);
      assert InName(isName, u[i - start]);
    }
    assert isName(body[start]) && isName(body[end - 1]) && !IsJoiner(body[start]) && !IsJoiner(body[end - 1]);
    if end < |body| && IsJoiner(body[end]) {
      assert end + 1 < |body| ==> !IsJoiner(body[end + 1]) && !isName(body[end + 1]);
      RunTo(isName, body, start, end + 1);
      assert TrimEnd(body, start, end + 1) == end;
    } else {
      RunTo(isName, body, start, end);
      assert TrimEnd(body, start, end) == end;
    }
  }

  lemma SameLetter(isName: NameChars, shown: string, u: string, n: nat)
    requires AnyCase(isName) && Tags.Lower(shown) == Tags.Lower(u) && n < |u|
    ensures |shown| == |u| && isName(shown[n]) == isName(u[n]) && (IsJoiner(shown[n]) <==> IsJoiner(u[n]))
  {
    assert Tags.Lower(shown)[n] == Tags.LowerChar(shown[n]) && Tags.Lower(u)[n] == Tags.LowerChar(u[n]);
    assert isName(shown[n]) <==> isName(Tags.LowerChar(shown[n]));
    assert isName(u[n]) <==> isName(Tags.LowerChar(u[n]));
  }

  lemma {:induction false} RunTo(isName: NameChars, body: string, at: nat, end: nat)
    requires at <= end <= |body| && (end == |body| || !InName(isName, body[end])) && forall i :: at <= i < end ==> InName(isName, body[i])
    ensures RunEnd(isName, body, at) == end
    decreases end - at
  {
    if at < end { RunTo(isName, body, at + 1, end); }
  }
}
