/** Where scan cuts a text into words: at the blanks, newlines and parentheses outside quotes, and nowhere else. */
module ScannerWords {
  import opened Prelude
  import opened Scanner
  import opened ScannerProps

  function WordsIn(st: Stmt): seq<string> { st.words }

  /** The words of all statements, in order. */
  function AllWords(stmts: seq<Stmt>): seq<string> { FlatMap(stmts, WordsIn) }

  /** Some of the words, from the first, are n characters. */
  ghost predicate CutAt(ws: seq<string>, n: int) {
    exists k: nat :: k <= |ws| && |FlatMap(ws[..k], Itself)| == n
  }

  /** At p the text is between words: outside quotes, comments and escapes, with no word begun, or just before a
      closing parenthesis. */
  predicate BreakAt(text: string, p: nat) {
    && p <= |text|
    && var m := SkimAll(text[..p]).mode;
       m == Blank || (m == InWord && p < |text| && text[p] == ')')
  }

  /** What has been kept of the text at p. */
  function KeptTo(text: string, p: nat): nat
    requires p <= |text|
  {
    |SkimAll(text[..p]).kept|
  }

  ghost predicate BreaksAt(text: string, n: int) {
    exists p: nat :: p <= |text| && BreakAt(text, p) && KeptTo(text, p) == n
  }

  /** The same of the first i characters. */
  ghost predicate BreaksBy(text: string, i: nat, n: int)
    requires i <= |text|
  {
    exists p: nat :: p <= i && (if p < i then BreakAt(text, p) else SkimAll(text[..i]).mode == Blank)
      && KeptTo(text, p) == n
  }

  /** The words that are complete. */
  function Past(s: Lexer): seq<string>
    requires s.Lexer?
  {
    AllWords(s.stmts) + s.words
  }

  lemma {:induction false} AllWordsKept(stmts: seq<Stmt>)
    ensures FlatMap(AllWords(stmts), Itself) == FlatMap(stmts, WordsOf)
  {
    if stmts == [] {
      FlatMapNothing<string, char>([], Itself);
    } else {
      var init, last := stmts[..|stmts| - 1], stmts[|stmts| - 1];
      AllWordsKept(init);
      FlatMapAppend(AllWords(init), last.words, Itself);
    }
  }

  lemma PastKept(s: Lexer)
    requires s.Lexer?
    ensures Held(s) == FlatMap(Past(s), Itself) + Or(s.word)
  {
    hide FlatMap;
    AllWordsKept(s.stmts);
    FlatMapAppend(AllWords(s.stmts), s.words, Itself);
  }

  lemma EndWordPast(s: Lexer)
    requires s.Lexer?
    ensures Past(EndWord(s)) == Past(s) + if s.word.Some? then [s.word.value] else []
    ensures EndWord(s).word == None
  {
    hide FlatMap;
  }

  lemma EndStmtPast(s: Lexer)
    requires s.Lexer?
    ensures Past(EndStmt(s)) == Past(EndWord(s)) && EndStmt(s).word == None && EndStmt(s).words == []
  {
    hide FlatMap;
    var e := EndWord(s);
    if e.words != [] {
      FlatMapSnoc(e.stmts, Stmt(e.start, e.words), WordsIn);
    }
  }

  lemma SamePast(s: Lexer, t: Lexer)
    requires s.Lexer? && t.Lexer? && s.stmts == t.stmts && s.words == t.words
    ensures Past(t) == Past(s)
  {
  }

  lemma NewlinePast(s: Lexer)
    requires s.Lexer?
    ensures Past(Newline(s)) == Past(s) + (if s.word.Some? then [s.word.value] else []) && Newline(s).word == None
  {
    hide Past;
    var n := s.(mode := Plain, line := s.line + 1);
    SamePast(s, n);
    EndWordPast(n);
    EndStmtPast(n);
    SamePast(EndStmt(n), EndStmt(n).(start := s.line + 1));
  }

  /** The words a step completes. */
  function Completed(s: Lexer, c: char): seq<string>
    requires s.Lexer?
  {
    var word := if s.word.Some? then [s.word.value] else [];
    if s.mode == Comment && c == '\n' then word
    else if s.mode != Plain then []
    else if c == '\n' || c == ' ' || c == '\t' then word
    else if c == '(' then [Or(s.word) + "("]
    else if c == ')' then word + [")"]
    else []
  }

  lemma StepPast(s: Lexer, c: char)
    requires s.Lexer? && Step(s, c).Lexer?
    ensures Past(Step(s, c)) == Past(s) + Completed(s, c)
    ensures Completed(s, c) != [] ==> Step(s, c).word == None
  {
    hide Past, OpensArray, EndStmt, EndWord, Newline;
    NewlinePast(s);
    EndWordPast(s);
    EndWordPast(Keep(s, Plain, "("));
    SamePast(s, Keep(s, Plain, "("));
    if s.mode == Plain && c == '(' {
      SamePast(EndWord(Keep(s, Plain, "(")), Step(s, c));
    } else if s.mode == Plain && c == ')' {
      WordPast(EndWord(s), ")", Step(s, c));
    } else if Completed(s, c) == [] && !(s.mode == Comment && c == '\n') && !(s.mode == Plain && c in " \t\n") {
      SamePast(s, Step(s, c));
    }
  }

  lemma WordPast(s: Lexer, w: string, t: Lexer)
    requires s.Lexer? && t.Lexer? && t.stmts == s.stmts && t.words == s.words + [w]
    ensures Past(t) == Past(s) + [w]
  {
    hide FlatMap;
  }

  lemma CutMore(ws: seq<string>, w: string, n: int)
    ensures CutAt(ws + [w], n) <==> CutAt(ws, n) || n == |FlatMap(ws, Itself)| + |w|
  {
    hide FlatMap;
    var all := ws + [w];
    FlatMapSnoc(ws, w, Itself);
    assert all[..|all|] == all;
    forall k: nat | k <= |ws|
      ensures all[..k] == ws[..k]
    {
    }
    if CutAt(ws, n) {
      var k: nat :| k <= |ws| && |FlatMap(ws[..k], Itself)| == n;
      assert |FlatMap(all[..k], Itself)| == n;
    }
    if n == |FlatMap(ws, Itself)| + |w| {
      assert |FlatMap(all[..|all|], Itself)| == n;
    }
  }

  lemma OneMore(ws: seq<string>, w: string)
    ensures |FlatMap(ws + [w], Itself)| == |FlatMap(ws, Itself)| + |w|
  {
    hide FlatMap;
    FlatMapSnoc(ws, w, Itself);
  }

  lemma CutAll(ws: seq<string>)
    ensures CutAt(ws, |FlatMap(ws, Itself)|)
  {
    assert ws[..|ws|] == ws;
  }

  /** One character more makes a break where it is read, before a parenthesis that closes, and one after it, when it
      leaves no word begun. */
  lemma BreaksMore(text: string, i: nat, n: int)
    requires i < |text|
    ensures BreaksBy(text, i + 1, n) <==>
              || BreaksBy(text, i, n)
              || (SkimAll(text[..i]).mode == InWord && text[i] == ')' && KeptTo(text, i) == n)
              || (SkimAll(text[..i + 1]).mode == Blank && KeptTo(text, i + 1) == n)
  {
    hide SkimAll, KeptTo;
    if BreaksBy(text, i + 1, n) {
      var p: nat :| p <= i + 1
        && (if p < i + 1 then BreakAt(text, p) else SkimAll(text[..i + 1]).mode == Blank) && KeptTo(text, p) == n;
    }
    if BreaksBy(text, i, n) {
      var p: nat :| p <= i && (if p < i then BreakAt(text, p) else SkimAll(text[..i]).mode == Blank)
        && KeptTo(text, p) == n;
      assert p < i + 1 && BreakAt(text, p);
    }
    if SkimAll(text[..i]).mode == InWord && text[i] == ')' && KeptTo(text, i) == n {
      assert BreakAt(text, i);
    }
  }

  /** How the modes and what is kept go with what is completed. */
  lemma CompletesAt(s: Lexer, c: char, n: int)
    requires s.Lexer? && Step(s, c).Lexer? && (s.mode == Comment ==> s.word == None)
    ensures var before, after := |FlatMap(Past(s), Itself)|, |Held(Step(s, c))|;
            CutAt(Past(Step(s, c)), n) <==>
              || CutAt(Past(s), n)
              || (SkimOf(s) == InWord && c == ')' && |Held(s)| == n)
              || (SkimOf(Step(s, c)) == Blank && after == n)
  {
    hide *;
    var t := Step(s, c);
    StepPast(s, c);
    PastKept(s);
    PastKept(t);
    CutAll(Past(s));
    CutAll(Past(t));
    var done := Completed(s, c);
    CompletedIs(s, c);
    if |done| == 1 {
      assert done == [done[0]];
      CutMore(Past(s), done[0], n);
      OneMore(Past(s), done[0]);
    } else if |done| == 2 {
      assert Past(s) + done == Past(s) + [done[0]] + [done[1]];
      CutMore(Past(s), done[0], n);
      CutMore(Past(s) + [done[0]], done[1], n);
      OneMore(Past(s), done[0]);
      OneMore(Past(s) + [done[0]], done[1]);
    } else {
      assert Past(s) + done == Past(s);
    }
  }

  lemma CompletedIs(s: Lexer, c: char)
    requires s.Lexer? && Step(s, c).Lexer? && (s.mode == Comment ==> s.word == None)
    ensures var done, t, paren := Completed(s, c), Step(s, c), s.mode == Plain && c == ')';
            && |done| <= 2 && (|done| == 2 <==> paren && s.word.Some?)
            && (paren ==> |done| >= 1 && done[|done| - 1] == ")")
            && (|done| >= 1 && !(paren && s.word == None) && !(c == '(') ==> done[0] == Or(s.word))
            && (SkimOf(t) == Blank <==> |done| > 0 || (s.word == None && (SkimOf(s) == Blank || s.mode == Comment)
                                                        && t.mode == Plain && t.word == None))
            && (SkimOf(t) == Blank ==> Or(t.word) == "")
            && (SkimOf(s) == InWord <==> s.mode == Plain && s.word.Some?)
            && (s.word == None ==> Or(s.word) == "")
            && (c == '(' && |done| > 0 ==> |done| == 1)
  {
    hide OpensArray;
  }

  /** What is read of a text is cut where it breaks. */
  lemma {:induction false} CutsAreBreaks(text: string, i: nat, n: int)
    requires i <= |text| && Run(START, text[..i]).Lexer?
    ensures CutAt(Past(Run(START, text[..i])), n) <==> BreaksBy(text, i, n)
    ensures Run(START, text[..i]).mode == Comment ==> Run(START, text[..i]).word == None
  {
    hide *;
    if i == 0 {
      NothingCut(text, n);
    } else {
      var s := Run(START, text[..i - 1]);
      RunNext(text, i - 1);
      StepFrom(s, text[i - 1]);
      CutsAreBreaks(text, i - 1, n);
      CompletesAt(s, text[i - 1], n);
      CommentBare(s, text[i - 1]);
      RunHolds(text[..i - 1]);
      RunHolds(text[..i]);
      BreaksMore(text, i - 1, n);
      KeptIs(text, i - 1, Held(s));
      KeptIs(text, i, Held(Step(s, text[i - 1])));
    }
  }

  lemma KeptIs(text: string, i: nat, held: string)
    requires i <= |text| && SkimAll(text[..i]).kept == held
    ensures KeptTo(text, i) == |held|
  {
    hide SkimAll;
  }

  lemma CommentBare(s: Lexer, c: char)
    requires s.Lexer? && Step(s, c).Lexer? && (s.mode == Comment ==> s.word == None)
    ensures Step(s, c).mode == Comment ==> Step(s, c).word == None
  {
    hide OpensArray;
  }

  lemma NothingCut(text: string, n: int)
    ensures Run(START, text[..0]) == START && START.Lexer? && START.mode != Comment
    ensures CutAt(Past(START), n) <==> BreaksBy(text, 0, n)
  {
    assert text[..0] == "";
    var none: seq<string> := [];
    assert Past(START) == none && none[..0] == none;
    FlatMapNothing(none, Itself);
    if CutAt(Past(START), n) {
      assert KeptTo(text, 0) == n;
    }
    if BreaksBy(text, 0, n) {
      assert |FlatMap(none[..0], Itself)| == n;
    }
  }

  /** The words of an accepted text are cut exactly where it breaks, and at its end: no word holds a blank outside
      quotes, and two words have a blank, a newline or a parenthesis between them. */
  lemma WordsCut(text: string, n: int)
    requires Accept(text).Ok?
    ensures CutAt(AllWords(Accept(text).value), n) <==> BreaksAt(text, n) || n == |Kept(text)|
  {
    hide *;
    var s := Run(START, text);
    var e := AcceptedEnd(text);
    assert text[..|text|] == text;
    RunHolds(text);
    CutsAreBreaks(text, |text|, n);
    PastKept(s);
    PastKept(e);
    EndWordPast(e);
    EndStmtPast(e);
    PastOf(EndStmt(e));
    WordsAreKept(text);
    AllWordsKept(Accept(text).value);
    BreaksEnd(text, n);
    CutAll(Past(s));
    SkimBlank(s);
    if e.word.Some? {
      CutMore(Past(s), e.word.value, n);
      OneMore(Past(s), e.word.value);
    } else {
      assert Past(s) + [] == Past(s);
      CutAll(Past(EndStmt(e)));
    }
  }

  lemma SkimBlank(s: Lexer)
    requires s.Lexer?
    ensures SkimOf(s) == Blank ==> s.word == None
  {
  }

  lemma PastOf(s: Lexer)
    requires s.Lexer? && s.words == []
    ensures Past(s) == AllWords(s.stmts)
  {
    hide FlatMap;
  }

  lemma BreaksEnd(text: string, n: int)
    ensures BreaksAt(text, n) <==> BreaksBy(text, |text|, n)
  {
    hide SkimAll, KeptTo;
    assert text[..|text|] == text;
    if BreaksAt(text, n) {
      var p: nat :| p <= |text| && BreakAt(text, p) && KeptTo(text, p) == n;
    }
    if BreaksBy(text, |text|, n) {
      var p: nat :| p <= |text|
        && (if p < |text| then BreakAt(text, p) else SkimAll(text[..|text|]).mode == Blank) && KeptTo(text, p) == n;
      assert BreakAt(text, p);
    }
  }

  /** What an accepted text ends in. */
  lemma AcceptedEnd(text: string) returns (e: Lexer)
    requires Accept(text).Ok?
    ensures var s := Run(START, text);
            && s.Lexer? && e.Lexer? && Past(e) == Past(s) && Accept(text).value == EndStmt(e).stmts
            && (e.word == None ==> s.word == None && e == s)
            && (s.word.Some? || s.mode == Escape ==> e.word.Some?)
  {
    hide Run, EndStmt;
    var s := Run(START, text);
    e := if s.mode == Escape then Keep(s, Plain, "\\") else s;
    SamePast(s, e);
  }
}
