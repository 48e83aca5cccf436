/** Which texts scan accepts, told without running it: where each character stands, what word and which parentheses
    are open there, and nothing else. */
module ScannerAccepts {
  import opened Prelude
  import opened Scanner
  import opened ScannerProps

  // ---------------------------------------------------------------- names --

  /** A shell name. */
  predicate IsName(name: string) {
    && name != "" && !('0' <= name[0] <= '9')
    && forall k :: 0 <= k < |name| ==>
         'A' <= name[k] <= 'Z' || 'a' <= name[k] <= 'z' || '0' <= name[k] <= '9' || name[k] == '_'
  }

  lemma {:induction false} NameRunSpec(w: string)
    ensures forall k :: 0 <= k < NameRun(w) ==> IsNameChar(w[k])
    ensures NameRun(w) < |w| ==> !IsNameChar(w[NameRun(w)])
  {
    if w != "" && IsNameChar(w[0]) {
      NameRunSpec(w[1..]);
      assert forall k :: 0 < k <= NameRun(w[1..]) ==> w[k] == w[1..][k - 1];
    }
  }

  lemma NameRunIs(w: string, n: nat)
    requires n <= |w| && (forall k :: 0 <= k < n ==> IsNameChar(w[k])) && (n < |w| ==> !IsNameChar(w[n]))
    ensures NameRun(w) == n
  {
    hide IsNameChar;
    NameRunSpec(w);
  }

  /** A word starts with NAME= or NAME+=. */
  ghost predicate Assigns(w: string, name: string) {
    IsName(name) && (name + "=" <= w || name + "+=" <= w)
  }

  /** What assigns has the name's length, and the equals sign after it. */
  lemma AssignsLength(w: string, name: string)
    requires Assigns(w, name)
    ensures NameRun(w) == |name| < |w| && w[..|name|] == name
    ensures AssignLength(w) > 0 && (AssignLength(w) == |w| <==> w == name + "=" || w == name + "+=")
  {
    var front := if name + "=" <= w then name + "=" else name + "+=";
    AssignsFront(w, name, front);
    NameIs(w, name);
    LengthIs(w, |name|);
    hide NameRun, AssignLength, IsName;
    assert |w| == |front| ==> w == front;
  }

  lemma AssignsFront(w: string, name: string, front: string)
    requires (front == name + "=" || front == name + "+=") && front <= w
    ensures |name| < |w| && w[..|name|] == name && w[|name|] == front[|name|]
    ensures front == name + "+=" ==> |name| + 1 < |w| && w[|name| + 1] == '='
  {
    assert w[..|front|] == front;
    assert w[..|name|] == front[..|name|];
    assert front == name + "+=" ==> w[|name| + 1] == front[|name| + 1];
  }

  lemma NameIs(w: string, name: string)
    requires IsName(name) && |name| < |w| && w[..|name|] == name && !IsNameChar(w[|name|])
    ensures NameRun(w) == |name| > 0 && IsLetter(w[0])
  {
    assert forall k :: 0 <= k < |name| ==> w[k] == name[k];
    NameRunIs(w, |name|);
  }

  lemma LengthIs(w: string, n: nat)
    requires 0 < n == NameRun(w) < |w| && IsLetter(w[0])
    requires w[n] == '=' || (w[n] == '+' && n + 1 < |w| && w[n + 1] == '=')
    ensures AssignLength(w) == n + if w[n] == '+' then 2 else 1
  {
    hide NameRun, IsLetter;
  }

  lemma LengthAssigns(w: string) returns (name: string)
    requires AssignLength(w) > 0
    ensures Assigns(w, name)
  {
    NameRunSpec(w);
    hide NameRun;
    name := w[..NameRun(w)];
    assert name + "=" <= w || name + "+=" <= w;
  }

  /** A word assigns exactly when some name and an equals sign start it, and opens an array when that is all of it. */
  lemma AssignForm(w: string)
    ensures AssignLength(w) > 0 <==> exists name :: Assigns(w, name)
    ensures OpensArray(w) <==> exists name :: IsName(name) && (w == name + "=" || w == name + "+=")
    ensures forall name :: Assigns(w, name) ==> NameRun(w) == |name| && w[..NameRun(w)] == name
  {
    hide AssignLength, NameRun, IsName;
    forall name | Assigns(w, name)
      ensures AssignLength(w) > 0 && NameRun(w) == |name| && w[..NameRun(w)] == name
    {
      AssignsLength(w, name);
    }
    if AssignLength(w) > 0 {
      var name := LengthAssigns(w);
      AssignsLength(w, name);
    }
    forall name | IsName(name) && (w == name + "=" || w == name + "+=")
      ensures OpensArray(w)
    {
      assert Assigns(w, name);
      AssignsLength(w, name);
    }
  }

  // -------------------------------------------------------------- breaches --

  /** Outside quotes, comments and escapes. */
  predicate Bare(m: Skim) { m == Blank || m == InWord }

  predicate Quoted(m: Skim) { m == SingleQuoted || m.DoubleQuoted? || m == DoubleEscaped }

  /** What has been kept since the last break between words. */
  function WordSoFar(text: string): string {
    if text == "" || SkimAll(text).mode in {Blank, Commented} then ""
    else WordSoFar(text[..|text| - 1]) + Gained(text)
  }

  /** What the last character adds to what is kept. */
  function Gained(text: string): string
    requires text != ""
  {
    var before, after := |SkimAll(text[..|text| - 1]).kept|, SkimAll(text).kept;
    if before <= |after| then after[before..] else ""
  }

  /** The unquoted parentheses open at the end of a text. */
  function Depth(text: string): int {
    if text == "" then 0
    else
      var init, c := text[..|text| - 1], text[|text| - 1];
      Depth(init) + if !Bare(SkimAll(init).mode) then 0 else if c == '(' then 1 else if c == ')' then -1 else 0
  }

  /** The line of the last character read outside quotes: at the end of a quote that is open, the one it opened on. */
  function OpenedOn(text: string): int {
    if text == "" then 1
    else if Bare(SkimAll(text[..|text| - 1]).mode) then 1 + Newlines(text[..|text| - 1])
    else OpenedOn(text[..|text| - 1])
  }

  /** Character i is one a recipe must not contain where it stands: outside quotes, a backtick or one of ; | & < >, an
      opening parenthesis that does not come right after NAME= or NAME+=, or a closing one with none open; inside double
      quotes, a backtick or the parenthesis of an unescaped dollar before it. */
  ghost predicate Breach(text: string, i: nat)
    requires i < |text|
  {
    var m, c := SkimAll(text[..i]).mode, text[i];
    || (Bare(m) && (|| c == '`' || c == ';' || c == '|' || c == '&' || c == '<' || c == '>'
                    || (c == '(' && !OpensArrayAt(text, i))
                    || (c == ')' && Depth(text[..i]) <= 0)))
    || (m.DoubleQuoted? && (c == '`' || (c == '(' && i > 0 && text[i - 1] == '$'
                                         && SkimAll(text[..i - 1]).mode.DoubleQuoted?)))
  }

  ghost predicate OpensArrayAt(text: string, i: nat)
    requires i < |text|
  {
    exists name :: IsName(name) && (WordSoFar(text[..i]) == name + "=" || WordSoFar(text[..i]) == name + "+=")
  }

  /** Nothing it must not contain, every quote closed, every parenthesis too. */
  ghost predicate Proper(text: string) {
    && (forall i :: 0 <= i < |text| ==> !Breach(text, i))
    && !Quoted(SkimAll(text).mode)
    && Depth(text) == 0
  }

  // --------------------------------------------------- the automaton agrees --

  /** What the automaton holds after a text, read off the text. */
  ghost predicate Holds(text: string, s: Lexer) {
    && s.Lexer?
    && SkimOf(s) == SkimAll(text).mode
    && (s.mode == Comment ==> s.word == None)
    && Or(s.word) == WordSoFar(text)
    && s.depth == Depth(text)
    && s.line == 1 + Newlines(text)
    && (s.mode.Single? || s.mode.Double? || s.mode.DoubleEscape? ==> s.mode.since == OpenedOn(text))
    && (s.mode.Double? ==> (s.mode.dollar <==> DollarBefore(text)))
  }

  /** The last character is a dollar that a parenthesis would make a command substitution. */
  predicate DollarBefore(text: string) {
    text != "" && text[|text| - 1] == '$' && SkimAll(text[..|text| - 1]).mode.DoubleQuoted?
  }

  /** What a step adds to the word: what it keeps, unless the word is over. */
  ghost predicate Adds(s: Lexer, t: Lexer)
    requires s.Lexer? && t.Lexer?
  {
    if SkimOf(t) in {Blank, Commented} then t.word == None
    else exists more :: Or(t.word) == Or(s.word) + more && Held(t) == Held(s) + more
  }

  lemma KeepAdds(s: Lexer, mode: Mode, more: string)
    requires s.Lexer? && mode != Comment
    ensures Adds(s, Keep(s, mode, more)) && Adds(s, Count(Keep(s, mode, more), '\n'))
  {
    hide FlatMap;
    KeepHolds(s, mode, more);
    var t := Keep(s, mode, more);
    assert Or(t.word) == Or(s.word) + more;
    assert Held(Count(t, '\n')) == Held(t) && Or(Count(t, '\n').word) == Or(t.word);
  }

  lemma SameAdds(s: Lexer, t: Lexer)
    requires s.Lexer? && t.Lexer? && Or(t.word) == Or(s.word) && t.words == s.words && t.stmts == s.stmts
    requires t.mode == Escape || (t.mode == Plain && t.word.Some?)
    ensures Adds(s, t)
  {
    hide FlatMap;
    assert Or(t.word) == Or(s.word) + "" && Held(t) == Held(s) + "";
  }

  lemma PlainAdds(s: Lexer, c: char)
    requires s.Lexer? && s.mode == Plain && StepPlain(s, c).Lexer?
    ensures Adds(s, StepPlain(s, c)) && (StepPlain(s, c).mode == Comment ==> StepPlain(s, c).word == None)
  {
    KeepAdds(s, Plain, [c]);
    KeepAdds(s, Single(s.line), "'");
    KeepAdds(s, Double(s.line, false), "\"");
    if c == '\\' {
      SameAdds(s, StepPlain(s, c));
    }
    hide Adds, OpensArray, Keep;
    AddsNothing(s, StepPlain(s, c));
    KeepLexer(s, "(");
  }

  lemma KeepLexer(s: Lexer, text: string)
    requires s.Lexer?
    ensures EndWord(Keep(s, Plain, text)).word == None && EndWord(Keep(s, Plain, text)).mode == Plain
  {
  }

  lemma AddsNothing(s: Lexer, t: Lexer)
    requires s.Lexer? && t.Lexer?
    ensures t.word == None && (t.mode == Plain || t.mode == Comment) ==> Adds(s, t)
  {
  }

  lemma StepWord(s: Lexer, c: char)
    requires s.Lexer? && Step(s, c).Lexer? && (s.mode == Comment ==> s.word == None)
    ensures Step(s, c).mode == Comment ==> Step(s, c).word == None
    ensures Adds(s, Step(s, c))
  {
    AddsNothing(s, Step(s, c));
    if s.mode == Plain {
      PlainAdds(s, c);
    } else if s.mode == Escape {
      KeepAdds(s, Plain, ['\\', c]);
      if c == '\n' {
        SameAdds(s, Step(s, c));
      }
    } else if s.mode.Single? {
      KeepAdds(s, if c == '\'' then Plain else s.mode, [c]);
    } else if s.mode.Double? {
      var mode := if c == '"' then Plain else if c == '\\' then DoubleEscape(s.mode.since)
                  else Double(s.mode.since, c == '$');
      KeepAdds(s, mode, [c]);
    } else if s.mode.DoubleEscape? {
      KeepAdds(s, Double(s.mode.since, false), [c]);
    }
    hide Adds, StepPlain, Keep;
  }

  lemma StepDepth(s: Lexer, c: char)
    requires s.Lexer? && Step(s, c).Lexer?
    ensures Step(s, c).depth ==
            s.depth + if s.mode != Plain then 0 else if c == '(' then 1 else if c == ')' then -1 else 0
  {
    hide OpensArray;
  }

  lemma StepSince(s: Lexer, c: char)
    requires s.Lexer? && Step(s, c).Lexer?
    ensures var m := Step(s, c).mode;
            m.Single? || m.Double? || m.DoubleEscape? ==>
              m.since == if s.mode == Plain then s.line
                         else if s.mode.Single? || s.mode.Double? || s.mode.DoubleEscape? then s.mode.since else 0
    ensures var m := Step(s, c).mode;
            m.Double? ==> (m.dollar <==> s.mode.Double? && c == '$')
    ensures var m := Step(s, c).mode;
            m.Single? || m.Double? || m.DoubleEscape? ==>
              s.mode == Plain || s.mode.Single? || s.mode.Double? || s.mode.DoubleEscape?
  {
    hide OpensArray;
  }

  lemma SkimModes(s: Lexer)
    requires s.Lexer?
    ensures Bare(SkimOf(s)) <==> s.mode == Plain
    ensures Quoted(SkimOf(s)) <==> s.mode.Single? || s.mode.Double? || s.mode.DoubleEscape?
    ensures SkimOf(s).DoubleQuoted? <==> s.mode.Double?
    ensures SkimOf(s) in {Blank, Commented} ==> s.mode == Plain || s.mode == Comment
  {
  }

  /** One more character that is not refused. */
  lemma HoldsNext(text: string, s: Lexer)
    requires text != "" && Run(START, text).Lexer?
    requires s == Run(START, text[..|text| - 1]) && Holds(text[..|text| - 1], s)
    ensures Holds(text, Run(START, text))
  {
    hide *;
    var init, c := text[..|text| - 1], text[|text| - 1];
    RunNext(text, |text| - 1);
    assert text[..|text|] == text;
    HoldsMeans(init, s);
    RunHolds(text);
    RunHolds(init);
    var t := Step(s, c);
    StepWord(s, c);
    StepDepth(s, c);
    StepSince(s, c);
    StepLines(s, c);
    assert text == init + [c];
    NewlinesSnoc(init, c);
    SkimModes(s);
    SkimModes(t);
    OfText(text);
    if SkimOf(t) in {Blank, Commented} {
      AddsNone(s, t);
      NoWord(t);
    } else {
      var more := AddsMore(s, t);
      GainedIs(text, Held(s), more);
    }
    HoldsIf(text, t);
  }

  lemma AddsNone(s: Lexer, t: Lexer)
    requires s.Lexer? && t.Lexer? && Adds(s, t) && SkimOf(t) in {Blank, Commented}
    ensures t.word == None
  {
    hide SkimOf, Held, Or;
  }

  lemma AddsMore(s: Lexer, t: Lexer) returns (more: string)
    requires s.Lexer? && t.Lexer? && Adds(s, t) && SkimOf(t) !in {Blank, Commented}
    ensures Or(t.word) == Or(s.word) + more && Held(t) == Held(s) + more
  {
    hide SkimOf, Held, Or;
    more :| Or(t.word) == Or(s.word) + more && Held(t) == Held(s) + more;
  }

  lemma NoWord(s: Lexer)
    requires s.Lexer? && s.word == None
    ensures Or(s.word) == ""
  {
  }

  lemma GainedIs(text: string, held: string, more: string)
    requires text != "" && SkimAll(text[..|text| - 1]).kept == held && SkimAll(text).kept == held + more
    ensures Gained(text) == more
  {
    hide SkimAll;
  }

  /** The functions of a text, one character on. */
  lemma OfText(text: string)
    requires text != ""
    ensures var init, c := text[..|text| - 1], text[|text| - 1];
            && WordSoFar(text)
               == (if SkimAll(text).mode in {Blank, Commented} then "" else WordSoFar(init) + Gained(text))
            && Depth(text) == Depth(init) + (if !Bare(SkimAll(init).mode) then 0
                                             else if c == '(' then 1 else if c == ')' then -1 else 0)
            && OpenedOn(text) == (if Bare(SkimAll(init).mode) then 1 + Newlines(init) else OpenedOn(init))
            && (DollarBefore(text) <==> c == '$' && SkimAll(init).mode.DoubleQuoted?)
  {
    hide SkimAll, Newlines, Gained, Bare;
  }

  lemma HoldsMeans(text: string, s: Lexer)
    requires Holds(text, s)
    ensures s.Lexer? && SkimOf(s) == SkimAll(text).mode && Or(s.word) == WordSoFar(text) && s.depth == Depth(text)
    ensures s.line == 1 + Newlines(text) && (s.mode == Comment ==> s.word == None)
    ensures s.mode.Single? || s.mode.Double? || s.mode.DoubleEscape? ==> s.mode.since == OpenedOn(text)
    ensures s.mode.Double? ==> (s.mode.dollar <==> DollarBefore(text))
  {
    hide SkimOf, SkimAll, WordSoFar, Depth, Newlines, OpenedOn, DollarBefore, Or;
  }

  lemma HoldsIf(text: string, s: Lexer)
    requires s.Lexer? && SkimOf(s) == SkimAll(text).mode && Or(s.word) == WordSoFar(text) && s.depth == Depth(text)
    requires s.line == 1 + Newlines(text) && (s.mode == Comment ==> s.word == None)
    requires s.mode.Single? || s.mode.Double? || s.mode.DoubleEscape? ==> s.mode.since == OpenedOn(text)
    requires s.mode.Double? ==> (s.mode.dollar <==> DollarBefore(text))
    ensures Holds(text, s)
  {
    hide SkimOf, SkimAll, WordSoFar, Depth, Newlines, OpenedOn, DollarBefore, Or;
  }

  /** The automaton refuses exactly the breaches, on their lines. */
  lemma RefusesBreach(text: string, i: nat, s: Lexer)
    requires i < |text| && Holds(text[..i], s)
    ensures Step(s, text[i]).Rejected? <==> Breach(text, i)
    ensures Breach(text, i) ==> Step(s, text[i]) == Rejected(1 + Newlines(text[..i]))
  {
    hide *;
    HoldsMeans(text[..i], s);
    SkimModes(s);
    OpensAt(text, i, s);
    BeforeAt(text, i);
    RefusalIs(s, text[i]);
    BreachIs(text, i);
  }

  lemma BreachIs(text: string, i: nat)
    requires i < |text|
    ensures var m, c := SkimAll(text[..i]).mode, text[i];
            Breach(text, i) <==>
              || (Bare(m) && (c in "`;|&<>" || (c == '(' && !OpensArrayAt(text, i))
                              || (c == ')' && Depth(text[..i]) <= 0)))
              || (m.DoubleQuoted? && (c == '`' || (c == '(' && i > 0 && text[i - 1] == '$'
                                                   && SkimAll(text[..i - 1]).mode.DoubleQuoted?)))
  {
    hide SkimAll, Depth, OpensArrayAt, Bare;
  }

  lemma RefusalIs(s: Lexer, c: char)
    requires s.Lexer?
    ensures Step(s, c).Rejected? <==>
              || (s.mode == Plain && (c in "`;|&<>" || (c == '(' && !(s.word.Some? && OpensArray(s.word.value)))
                                      || (c == ')' && s.depth == 0)))
              || (s.mode.Double? && (c == '`' || (c == '(' && s.mode.dollar)))
    ensures Step(s, c).Rejected? ==> Step(s, c) == Rejected(s.line)
  {
    hide OpensArray;
  }

  lemma OpensAt(text: string, i: nat, s: Lexer)
    requires i < |text| && s.Lexer? && Or(s.word) == WordSoFar(text[..i])
    ensures OpensArrayAt(text, i) <==> s.word.Some? && OpensArray(s.word.value)
  {
    AssignForm(WordSoFar(text[..i]));
    WordOpens(s);
    hide OpensArray, WordSoFar, Or, IsName;
  }

  lemma BeforeAt(text: string, i: nat)
    requires i < |text|
    ensures DollarBefore(text[..i]) <==> i > 0 && text[i - 1] == '$' && SkimAll(text[..i - 1]).mode.DoubleQuoted?
  {
    hide SkimAll;
    assert i > 0 ==> text[..i][..i - 1] == text[..i - 1] && text[..i][i - 1] == text[i - 1];
  }

  lemma WordOpens(s: Lexer)
    requires s.Lexer?
    ensures s.word.Some? && OpensArray(s.word.value) <==> OpensArray(Or(s.word))
  {
  }

  /** Up to the first breach the automaton goes on, holding what the text says. */
  lemma {:induction false} RunsOn(text: string, i: nat)
    requires i <= |text| && forall j :: 0 <= j < i ==> !Breach(text, j)
    ensures Holds(text[..i], Run(START, text[..i]))
  {
    hide *;
    if i == 0 {
      NothingHeld();
      assert text[..0] == "";
    } else {
      RunsOn(text, i - 1);
      var s := Run(START, text[..i - 1]);
      RefusesBreach(text, i - 1, s);
      RunNext(text, i - 1);
      assert text[..i][..|text[..i]| - 1] == text[..i - 1] && text[..i][|text[..i]| - 1] == text[i - 1];
      LexerOrNot(Step(s, text[i - 1]));
      HoldsNext(text[..i], s);
    }
  }

  lemma LexerOrNot(s: Lexer)
    ensures s.Lexer? <==> !s.Rejected?
  {
  }

  lemma NothingHeld()
    ensures Holds("", Run(START, ""))
  {
  }

  /** A text is refused at the line of its first breach. */
  lemma RefusedAt(text: string, i: nat)
    requires i < |text| && Breach(text, i) && forall j :: 0 <= j < i ==> !Breach(text, j)
    ensures Accept(text) == Err(1 + Newlines(text[..i]))
  {
    hide *;
    RunsOn(text, i);
    var s := Run(START, text[..i]);
    RefusesBreach(text, i, s);
    RunNext(text, i);
    RejectedAt(text, i + 1, 1 + Newlines(text[..i]));
  }

  lemma RejectedAt(text: string, i: nat, line: int)
    requires i <= |text| && Run(START, text[..i]) == Rejected(line)
    ensures Accept(text) == Err(line)
  {
    RejectedPrefix(text, i);
  }

  /** The end of a text without a breach. */
  lemma UnbrokenEnds(text: string)
    requires forall j :: 0 <= j < |text| ==> !Breach(text, j)
    ensures Quoted(SkimAll(text).mode) ==> Accept(text) == Err(OpenedOn(text))
    ensures !Quoted(SkimAll(text).mode) && Depth(text) != 0 ==> Accept(text) == Err(0)
    ensures !Quoted(SkimAll(text).mode) && Depth(text) == 0 ==> Accept(text).Ok?
  {
    hide *;
    RunsOn(text, |text|);
    assert text[..|text|] == text;
    var s := Run(START, text);
    HoldsMeans(text, s);
    SkimModes(s);
    FinishEnds(s);
    AcceptIs(text);
  }

  lemma AcceptIs(text: string)
    ensures Accept(text) == Finish(Run(START, text))
  {
    hide Finish, Run;
  }

  lemma FinishEnds(s: Lexer)
    requires s.Lexer?
    ensures s.mode.Single? || s.mode.Double? || s.mode.DoubleEscape? ==> Finish(s) == Err(s.mode.since)
    ensures !(s.mode.Single? || s.mode.Double? || s.mode.DoubleEscape?) ==>
              if s.depth == 0 then Finish(s).Ok? else Finish(s) == Err(0)
  {
    hide EndStmt;
  }

  /** scan accepts exactly the texts with nothing a recipe must not contain, whose quotes and parentheses close. */
  lemma AcceptedWhen(text: string)
    ensures Accept(text).Ok? <==> Proper(text)
  {
    hide *;
    ProperMeans(text);
    if i :| 0 <= i < |text| && Breach(text, i) {
      var first := FirstBreach(text, i);
      RefusedAt(text, first);
    } else {
      UnbrokenEnds(text);
    }
  }

  lemma ProperMeans(text: string)
    ensures Proper(text) <==> (forall i :: 0 <= i < |text| ==> !Breach(text, i)) && !Quoted(SkimAll(text).mode)
                              && Depth(text) == 0
  {
    hide Breach, Quoted, SkimAll, Depth;
  }

  lemma {:induction false} FirstBreach(text: string, i: nat) returns (first: nat)
    requires i < |text| && Breach(text, i)
    ensures first < |text| && Breach(text, first) && forall j :: 0 <= j < first ==> !Breach(text, j)
  {
    hide Breach;
    if j: nat :| j < i && Breach(text, j) {
      first := FirstBreach(text, j);
    } else {
      first := i;
    }
  }
}
