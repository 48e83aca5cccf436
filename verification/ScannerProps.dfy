/** What scan's statements say about the text: nothing but blanks, comments and
    line breaks is dropped, and a statement is its logical line, scanned alone. */
module ScannerProps {
  import opened Prelude
  import opened Scanner

  // --------------------------------------------------------- kept text --

  /** Where an unquoted '#' starts a comment and what a character adds, with no words, lines or arrays. */
  datatype Skim = Blank | InWord | Commented | Escaped | SingleQuoted | DoubleQuoted(dollar: bool) | DoubleEscaped

  datatype Skimmed = Skimmed(mode: Skim, kept: string)

  function SkimChar(s: Skimmed, c: char): Skimmed {
    match s.mode
    case Commented => if c == '\n' then s.(mode := Blank) else s
    case Escaped => Skimmed(InWord, s.kept + (if c == '\n' then "" else ['\\', c]))
    case SingleQuoted => Skimmed(if c == '\'' then InWord else SingleQuoted, s.kept + [c])
    case DoubleQuoted(_) =>
      Skimmed(if c == '"' then InWord else if c == '\\' then DoubleEscaped else DoubleQuoted(c == '$'), s.kept + [c])
    case DoubleEscaped => Skimmed(DoubleQuoted(false), s.kept + [c])
    case _ =>
      if c in " \t\n" then s.(mode := Blank)
      else if c == '#' && s.mode == Blank then s.(mode := Commented)
      else if c == '\\' then s.(mode := Escaped)
      else Skimmed(if c == '\'' then SingleQuoted else if c == '"' then DoubleQuoted(false)
                   else if c == '(' || c == ')' then Blank else InWord, s.kept + [c])
  }

  function SkimAll(text: string): Skimmed {
    if text == "" then Skimmed(Blank, "") else SkimChar(SkimAll(text[..|text| - 1]), text[|text| - 1])
  }

  /** The text without unquoted blanks, newlines, comments and backslash-newlines. */
  function Kept(text: string): string {
    var s := SkimAll(text);
    s.kept + (if s.mode == Escaped then "\\" else "")
  }

  function Itself(w: string): string { w }

  function WordsOf(st: Stmt): string { FlatMap(st.words, Itself) }

  function SkimOf(s: Lexer): Skim
    requires s.Lexer?
  {
    match s.mode
    case Plain => if s.word == None then Blank else InWord
    case Comment => Commented
    case Escape => Escaped
    case Single(_) => SingleQuoted
    case Double(_, dollar) => DoubleQuoted(dollar)
    case DoubleEscape(_) => DoubleEscaped
  }

  /** Every character the automaton holds, in order. */
  function Held(s: Lexer): string
    requires s.Lexer?
  {
    FlatMap(s.stmts, WordsOf) + FlatMap(s.words, Itself) + Or(s.word)
  }

  lemma EndWordHolds(s: Lexer)
    requires s.Lexer?
    ensures Held(EndWord(s)) == Held(s)
  {
    if s.word.Some? {
      FlatMapSnoc(s.words, s.word.value, Itself);
    }
  }

  lemma EndStmtHolds(s: Lexer)
    requires s.Lexer?
    ensures Held(EndStmt(s)) == Held(s)
  {
    hide FlatMap;
    var e := EndWord(s);
    EndWordHolds(s);
    FlatMapNothing<string, char>([], Itself);
    if e.words != [] {
      FlatMapSnoc(e.stmts, Stmt(e.start, e.words), WordsOf);
    }
  }

  lemma NewlineHolds(s: Lexer)
    requires s.Lexer?
    ensures Held(Newline(s)) == Held(s)
  {
    hide FlatMap;
    var n := s.(mode := Plain, line := s.line + 1);
    assert Held(n) == Held(s);
    if s.depth == 0 {
      EndStmtHolds(n);
    } else {
      EndWordHolds(n);
    }
  }

  lemma KeepHolds(s: Lexer, mode: Mode, text: string)
    requires s.Lexer?
    ensures Held(Keep(s, mode, text)) == Held(s) + text
  {
    hide FlatMap;
  }

  lemma StepHolds(s: Lexer, c: char)
    requires s.Lexer? && Step(s, c).Lexer?
    ensures Skimmed(SkimOf(Step(s, c)), Held(Step(s, c))) == SkimChar(Skimmed(SkimOf(s), Held(s)), c)
  {
    hide FlatMap, OpensArray;
    match s.mode {
      case Plain => PlainHolds(s, c);
      case Comment => NewlineHolds(s);
      case Escape =>
        if c == '\n' {
          assert Held(s) + "" == Held(s);
        } else {
          KeepHolds(s, Plain, ['\\', c]);
        }
      case Single(_) => KeepHolds(s, if c == '\'' then Plain else s.mode, [c]);
      case Double(since, dollar) =>
        KeepHolds(s, if c == '"' then Plain else if c == '\\' then DoubleEscape(since) else Double(since, c == '$'),
                  [c]);
      case DoubleEscape(since) => KeepHolds(s, Double(since, false), [c]);
    }
  }

  lemma PlainHolds(s: Lexer, c: char)
    requires s.Lexer? && s.mode == Plain && StepPlain(s, c).Lexer?
    ensures Skimmed(SkimOf(StepPlain(s, c)), Held(StepPlain(s, c))) == SkimChar(Skimmed(SkimOf(s), Held(s)), c)
  {
    hide FlatMap, OpensArray;
    if c == '\n' {
      NewlineHolds(s);
    } else if c == ' ' || c == '\t' {
      EndWordHolds(s);
    } else if c == '(' {
      KeepHolds(s, Plain, "(");
      EndWordHolds(Keep(s, Plain, "("));
    } else if c == ')' {
      EndWordHolds(s);
      FlatMapSnoc(EndWord(s).words, ")", Itself);
    } else if c == '\'' {
      KeepHolds(s, Single(s.line), "'");
    } else if c == '"' {
      KeepHolds(s, Double(s.line, false), "\"");
    } else if c != '\\' && !(c == '#' && s.word == None) {
      KeepHolds(s, Plain, [c]);
    }
  }

  lemma StepFrom(s: Lexer, c: char)
    ensures Step(s, c).Lexer? ==> s.Lexer?
  {
  }

  lemma {:induction false} RunHolds(text: string)
    requires Run(START, text).Lexer?
    ensures SkimAll(text) == Skimmed(SkimOf(Run(START, text)), Held(Run(START, text)))
  {
    if text != "" {
      hide Step, SkimChar, Held;
      var init := text[..|text| - 1];
      StepFrom(Run(START, init), text[|text| - 1]);
      RunHolds(init);
      StepHolds(Run(START, init), text[|text| - 1]);
    }
  }

  /** The words of all statements, concatenated, are the text less what the shell drops. */
  lemma WordsAreKept(text: string)
    requires Accept(text).Ok?
    ensures FlatMap(Accept(text).value, WordsOf) == Kept(text)
  {
    hide FlatMap, Run, SkimAll, Step;
    var s := Run(START, text);
    RunHolds(text);
    var e := if s.mode.Escape? then Keep(s, Plain, "\\") else s;
    if s.mode.Escape? {
      KeepHolds(s, Plain, "\\");
    }
    EndStmtHolds(e);
    FlatMapNothing<string, char>([], Itself);
  }

  // ------------------------------------------------------ logical lines --

  function Moved(stmts: seq<Stmt>, d: int): seq<Stmt> {
    seq(|stmts|, k requires 0 <= k < |stmts| => Stmt(stmts[k].line + d, stmts[k].words))
  }

  function MovedMode(m: Mode, d: int): Mode {
    match m
    case Single(since) => Single(since + d)
    case Double(since, dollar) => Double(since + d, dollar)
    case DoubleEscape(since) => DoubleEscape(since + d)
    case _ => m
  }

  /** A state d lines further down, after these statements. */
  function After(before: seq<Stmt>, d: int, s: Lexer): Lexer {
    if s.Rejected? then Rejected(s.at + d)
    else Lexer(MovedMode(s.mode, d), s.word, s.words, before + Moved(s.stmts, d), s.line + d, s.start + d, s.depth)
  }

  lemma MovedSnoc(before: seq<Stmt>, stmts: seq<Stmt>, st: Stmt, d: int)
    ensures before + Moved(stmts + [st], d) == before + Moved(stmts, d) + [Stmt(st.line + d, st.words)]
  {
    assert Moved(stmts + [st], d) == Moved(stmts, d) + [Stmt(st.line + d, st.words)];
  }

  lemma EndStmtAfter(before: seq<Stmt>, d: int, s: Lexer)
    requires s.Lexer?
    ensures EndStmt(After(before, d, s)) == After(before, d, EndStmt(s))
  {
    hide Moved;
    var e := EndWord(s);
    assert EndWord(After(before, d, s)) == After(before, d, e);
    MovedSnoc(before, e.stmts, Stmt(e.start, e.words), d);
  }

  lemma NewlineAfter(before: seq<Stmt>, d: int, s: Lexer)
    requires s.Lexer?
    ensures Newline(After(before, d, s)) == After(before, d, Newline(s))
  {
    hide Moved, EndWord;
    EndStmtAfter(before, d, s.(mode := Plain, line := s.line + 1));
    EndWordAfter(before, d, s.(mode := Plain, line := s.line + 1));
    hide EndStmt;
  }

  lemma StepAfter(before: seq<Stmt>, d: int, s: Lexer, c: char)
    ensures Step(After(before, d, s), c) == After(before, d, Step(s, c))
  {
    hide OpensArray, EndStmt, Moved, Newline, StepPlain;
    if s.Lexer? {
      NewlineAfter(before, d, s);
      if s.mode == Plain {
        PlainAfter(before, d, s, c);
      }
    }
  }

  lemma PlainAfter(before: seq<Stmt>, d: int, s: Lexer, c: char)
    requires s.Lexer? && s.mode == Plain
    ensures StepPlain(After(before, d, s), c) == After(before, d, StepPlain(s, c))
  {
    NewlineAfter(before, d, s);
    EndWordAfter(before, d, s);
    KeepAfter(before, d, s, Plain, "(");
    EndWordAfter(before, d, Keep(s, Plain, "("));
    KeepAfter(before, d, s, Plain, [c]);
    KeepAfter(before, d, s, Single(s.line), "'");
    KeepAfter(before, d, s, Double(s.line, false), "\"");
    hide OpensArray, EndStmt, Moved, Newline, EndWord, Keep;
  }

  lemma EndWordAfter(before: seq<Stmt>, d: int, s: Lexer)
    requires s.Lexer?
    ensures EndWord(After(before, d, s)) == After(before, d, EndWord(s))
  {
    hide Moved;
  }

  lemma KeepAfter(before: seq<Stmt>, d: int, s: Lexer, mode: Mode, text: string)
    requires s.Lexer?
    ensures Keep(After(before, d, s), MovedMode(mode, d), text) == After(before, d, Keep(s, mode, text))
  {
    hide Moved;
  }

  lemma {:induction false} RunAfter(before: seq<Stmt>, d: int, s: Lexer, text: string)
    ensures Run(After(before, d, s), text) == After(before, d, Run(s, text))
  {
    hide Step, After;
    if text != "" {
      RunAfter(before, d, s, text[..|text| - 1]);
      StepAfter(before, d, Run(s, text[..|text| - 1]), text[|text| - 1]);
    }
  }

  /** The automaton is at the start of a logical line. */
  predicate Boundary(s: Lexer) {
    s.Lexer? && s.mode == Plain && s.word == None && s.words == [] && s.depth == 0 && s.start == s.line
  }

  lemma {:induction false} RunLines(text: string)
    ensures Run(START, text).Lexer? ==> Run(START, text).line == 1 + Newlines(text)
    ensures Run(START, text).Rejected? ==> Run(START, text).at >= 1
  {
    if text != "" {
      var init := text[..|text| - 1];
      hide OpensArray;
      RunLines(init);
      StepLines(Run(START, init), text[|text| - 1]);
    }
  }

  lemma StepLines(s: Lexer, c: char)
    ensures s.Lexer? && Step(s, c).Lexer? ==> Step(s, c).line == s.line + (if c == '\n' then 1 else 0)
    ensures s.Lexer? && Step(s, c).Rejected? ==> Step(s, c).at == s.line
    ensures s.Rejected? ==> Step(s, c) == s
  {
    hide OpensArray;
  }

  function MovedResult(before: seq<Stmt>, d: int, r: Result<seq<Stmt>, int>): Result<seq<Stmt>, int> {
    if r.Ok? then Ok(before + Moved(r.value, d)) else Err(if r.error == 0 then 0 else r.error + d)
  }

  lemma {:induction false} RunQuoteLines(text: string)
    ensures var s := Run(START, text);
            s.Lexer? && (s.mode.Single? || s.mode.Double? || s.mode.DoubleEscape?) ==> s.mode.since >= 1
  {
    if text != "" {
      hide OpensArray;
      RunQuoteLines(text[..|text| - 1]);
      RunLines(text[..|text| - 1]);
    }
  }

  lemma FinishAfter(before: seq<Stmt>, d: int, text: string)
    ensures Finish(After(before, d, Run(START, text))) == MovedResult(before, d, Accept(text))
  {
    RunLines(text);
    RunQuoteLines(text);
    hide Run, Newlines, After, MovedResult, Finish;
    FinishMoved(before, d, Run(START, text));
  }

  lemma FinishMoved(before: seq<Stmt>, d: int, s: Lexer)
    requires s.Rejected? ==> s.at >= 1
    requires s.Lexer? && (s.mode.Single? || s.mode.Double? || s.mode.DoubleEscape?) ==> s.mode.since >= 1
    ensures Finish(After(before, d, s)) == MovedResult(before, d, Finish(s))
  {
    hide Moved, EndStmt;
    if s.Lexer? && (s.mode.Escape? || s.mode.Plain? || s.mode.Comment?) {
      var e := if s.mode.Escape? then Keep(s, Plain, "\\") else s;
      EndStmtAfter(before, d, e);
      assert Finish(s) == Ended(e) && Finish(After(before, d, s)) == Ended(After(before, d, e));
    }
  }

  /** A text that reaches a logical line's start scans as what came before and the rest, scanned
      alone and moved down as many lines. */
  lemma ScansByLogicalLine(a: string, b: string)
    requires Boundary(Run(START, a))
    ensures Accept(a + b) == MovedResult(Run(START, a).stmts, Newlines(a), Accept(b))
  {
    hide Run, Step, Finish;
    var s := Run(START, a);
    RunAppend(START, a, b);
    RunLines(a);
    assert After(s.stmts, Newlines(a), START) == s;
    RunAfter(s.stmts, Newlines(a), START, b);
    FinishAfter(s.stmts, Newlines(a), b);
  }

  /** The k-th statement is one logical line: it starts at p, where no quote, array or statement is open,
      its line is one more than the newlines before it, and text[p..q] alone scans to just it. */
  ghost predicate IsLogicalLine(text: string, st: Stmt, p: nat, q: nat) {
    && p <= q <= |text|
    && Boundary(Run(START, text[..p]))
    && st.line == 1 + Newlines(text[..p])
    && Accept(text[p..q]) == Ok([Stmt(1, st.words)])
    && (q == |text| || text[q] == '\n')
  }

  ghost predicate HasLogicalLine(text: string, i: nat, st: Stmt) {
    exists p: nat, q: nat :: q <= i && IsLogicalLine(text, st, p, q)
  }

  /** At i: p is where the current logical line starts, and the state is that of the line alone, moved. */
  ghost predicate InLine(text: string, i: nat, p: nat) {
    && p <= i <= |text|
    && Boundary(Run(START, text[..p]))
    && Run(START, text[p..i]).Lexer? && Run(START, text[p..i]).stmts == [] && Run(START, text[p..i]).start == 1
    && Run(START, text[..i]) == After(Run(START, text[..p]).stmts, Newlines(text[..p]), Run(START, text[p..i]))
  }

  lemma InLineStarts(text: string, p: nat)
    requires p <= |text| && Boundary(Run(START, text[..p]))
    ensures InLine(text, p, p)
  {
    hide Step;
    RunLines(text[..p]);
    assert text[p..p] == "";
  }

  /** Within a logical line nothing is completed, until the newline that ends it. */
  lemma StepInLine(s: Lexer, c: char)
    requires s.Lexer? && s.stmts == [] && s.start == 1 && Step(s, c).Lexer?
    requires c == '\n' ==> s.depth > 0 || (s.mode != Plain && s.mode != Comment)
    ensures Step(s, c).stmts == [] && Step(s, c).start == 1
  {
    hide OpensArray;
  }

  lemma InLineNext(text: string, i: nat, p: nat)
    requires InLine(text, i, p) && i < |text| && Run(START, text[..i + 1]).Lexer?
    requires var s := Run(START, text[p..i]);
             text[i] == '\n' ==> s.depth > 0 || (s.mode != Plain && s.mode != Comment)
    ensures InLine(text, i + 1, p)
  {
    hide Step, After, Newlines;
    RunNext(text, i);
    assert text[p..i + 1] == text[p..i] + [text[i]];
    RunSnoc(START, text[p..i], text[i]);
    StepAfter(Run(START, text[..p]).stmts, Newlines(text[..p]), Run(START, text[p..i]), text[i]);
    AfterLexer(Run(START, text[..p]).stmts, Newlines(text[..p]), Step(Run(START, text[p..i]), text[i]));
    StepInLine(Run(START, text[p..i]), text[i]);
  }

  lemma AfterLexer(before: seq<Stmt>, d: int, s: Lexer)
    ensures After(before, d, s).Lexer? <==> s.Lexer?
  {
  }

  /** A newline that ends a logical line: its statement, if it holds one, is done, and the next line starts. */
  lemma LineEnds(text: string, i: nat, p: nat)
    requires InLine(text, i, p) && i < |text| && text[i] == '\n'
    requires var s := Run(START, text[p..i]); s.depth == 0 && (s.mode == Plain || s.mode == Comment)
    ensures var after := Run(START, text[..i + 1]);
            var before := Run(START, text[..p]).stmts;
            Boundary(after)
            && (after.stmts == before
                || (exists st :: after.stmts == before + [st] && IsLogicalLine(text, st, p, i)))
  {
    hide Run, Newlines;
    var s, d, before := Run(START, text[p..i]), Newlines(text[..p]), Run(START, text[..p]).stmts;
    RunNext(text, i);
    StepAfter(before, d, s, '\n');
    var e := EndWord(s.(mode := Plain, line := s.line + 1));
    assert Finish(s) == Ok(EndStmt(s).stmts);
    if e.words != [] {
      MovedSnoc(before, [], Stmt(1, e.words), d);
      var st := Stmt(1 + d, e.words);
      assert [] + [Stmt(1, e.words)] == [Stmt(1, e.words)];
      assert Run(START, text[..i + 1]).stmts == before + [st];
      assert IsLogicalLine(text, st, p, i);
    }
  }

  ghost predicate AllLogicalLines(text: string, i: nat, stmts: seq<Stmt>) {
    forall k :: 0 <= k < |stmts| ==> HasLogicalLine(text, i, stmts[k])
  }

  lemma LinesStay(text: string, i: nat, stmts: seq<Stmt>)
    requires AllLogicalLines(text, i, stmts)
    ensures AllLogicalLines(text, i + 1, stmts)
  {
    forall k | 0 <= k < |stmts|
      ensures HasLogicalLine(text, i + 1, stmts[k])
    {
      var p: nat, q: nat :| q <= i && IsLogicalLine(text, stmts[k], p, q);
      assert q <= i + 1;
    }
  }

  lemma {:induction false} RunInLine(text: string, i: nat) returns (p: nat)
    requires i <= |text| && Run(START, text[..i]).Lexer?
    ensures InLine(text, i, p)
    ensures AllLogicalLines(text, i, Run(START, text[..i]).stmts)
  {
    hide Step, Newlines, IsLogicalLine;
    if i == 0 {
      StartsAt(text);
      assert text[..0] == "";
      p := 0;
      InLineStarts(text, 0);
    } else {
      RunNext(text, i - 1);
      StepFrom(Run(START, text[..i - 1]), text[i - 1]);
      p := RunInLine(text, i - 1);
      var s := Run(START, text[p..i - 1]);
      var stmts := Run(START, text[..i - 1]).stmts;
      LinesStay(text, i - 1, stmts);
      assert stmts == Run(START, text[..p]).stmts;
      if text[i - 1] == '\n' && s.depth == 0 && (s.mode == Plain || s.mode == Comment) {
        LineEnds(text, i - 1, p);
        if Run(START, text[..i]).stmts != stmts {
          var st :| Run(START, text[..i]).stmts == stmts + [st] && IsLogicalLine(text, st, p, i - 1);
          assert HasLogicalLine(text, i, st);
        }
        p := i;
        InLineStarts(text, i);
      } else {
        InLineNext(text, i - 1, p);
      }
    }
  }

  /** Every statement of an accepted text is one logical line, numbered by the newlines before it. */
  lemma StatementsAreLogicalLines(text: string)
    requires Accept(text).Ok?
    ensures AllLogicalLines(text, |text|, Accept(text).value)
  {
    hide Run, Step, Newlines;
    assert text[..|text|] == text;
    var p := RunInLine(text, |text|);
    var before, d, s := Run(START, text[..p]).stmts, Newlines(text[..p]), Run(START, text[p..]);
    assert text[p..|text|] == text[p..];
    FinishAfter(before, d, text[p..]);
    var stmts, last := Accept(text).value, Accept(text[p..]).value;
    assert stmts == before + Moved(last, d);
    EndOfLine(s);
    forall k | 0 <= k < |stmts|
      ensures HasLogicalLine(text, |text|, stmts[k])
    {
      if k < |before| {
        assert stmts[k] == Run(START, text).stmts[k];
      } else {
        assert last == [last[0]] && stmts[k] == Stmt(1 + d, last[0].words);
        assert IsLogicalLine(text, stmts[k], p, |text|);
      }
    }
  }

  /** The end of the text completes at most one statement, on line 1 of its logical line. */
  lemma EndOfLine(s: Lexer)
    requires s.Lexer? && s.stmts == [] && s.start == 1 && Finish(s).Ok?
    ensures |Finish(s).value| <= 1 && forall k :: 0 <= k < |Finish(s).value| ==> Finish(s).value[k].line == 1
  {
  }
}
