/** py/recipes.py's scan: bash source split into statements. The method jumps
    over quotes, comments and escapes; the automaton it is proved equal to
    reads one character at a time. */
module Scanner {
  import opened Prelude

  datatype Stmt = Stmt(line: int, words: seq<string>)

  // ----------------------------------------------------------- characters --

  predicate IsLetter(c: char) { 'A' <= c <= 'Z' || 'a' <= c <= 'z' || c == '_' }

  predicate IsNameChar(c: char) { IsLetter(c) || '0' <= c <= '9' }

  /** How many characters of w, from the start, can be part of a name. */
  function NameRun(w: string): (n: nat)
    ensures n <= |w|
  {
    if w == "" || !IsNameChar(w[0]) then 0 else 1 + NameRun(w[1..])
  }

  /** The length of w's match of NAME= or NAME+=, or 0. */
  function AssignLength(w: string): (n: nat)
    ensures n <= |w|
  {
    var n := NameRun(w);
    if n == 0 || !IsLetter(w[0]) then 0
    else
      var k := if n < |w| && w[n] == '+' then n + 1 else n;
      if k < |w| && w[k] == '=' then k + 1 else 0
  }

  /** w is exactly NAME= or NAME+=: an array may open here. */
  predicate OpensArray(w: string) { w != "" && AssignLength(w) == |w| }

  function Newlines(text: string): nat {
    if text == "" then 0 else Newlines(text[..|text| - 1]) + (if text[|text| - 1] == '\n' then 1 else 0)
  }

  // ------------------------------------------------------------ automaton --

  /** since is the line of the quote that is open; dollar, that the last character could start "$(". */
  datatype Mode =
    | Plain
    | Comment
    | Escape
    | Single(since: int)
    | Double(since: int, dollar: bool)
    | DoubleEscape(since: int)

  /** A rejection keeps only the line it reports. */
  datatype Lexer =
    | Lexer(mode: Mode, word: Option<string>, words: seq<string>, stmts: seq<Stmt>, line: int, start: int, depth: nat)
    | Rejected(at: int)

  const START := Lexer(Plain, None, [], [], 1, 1, 0)

  function Or(word: Option<string>): string {
    if word.Some? then word.value else ""
  }

  function EndWord(s: Lexer): (r: Lexer)
    requires s.Lexer?
    ensures r.Lexer?
  {
    if s.word.Some? then s.(words := s.words + [s.word.value], word := None) else s
  }

  function EndStmt(s: Lexer): (r: Lexer)
    requires s.Lexer?
    ensures r.Lexer?
  {
    var e := EndWord(s);
    e.(stmts := if e.words != [] then e.stmts + [Stmt(e.start, e.words)] else e.stmts, words := [])
  }

  /** An unquoted newline: it ends the statement, or inside an array only the word. */
  function Newline(s: Lexer): (r: Lexer)
    requires s.Lexer?
    ensures r.Lexer?
  {
    var n := s.(mode := Plain, line := s.line + 1);
    if s.depth == 0 then EndStmt(n).(start := s.line + 1) else EndWord(n)
  }

  function Keep(s: Lexer, mode: Mode, text: string): (r: Lexer)
    requires s.Lexer?
    ensures r.Lexer?
  {
    s.(mode := mode, word := Some(Or(s.word) + text))
  }

  function Count(s: Lexer, c: char): (r: Lexer)
    requires s.Lexer?
    ensures r.Lexer?
  {
    if c == '\n' then s.(line := s.line + 1) else s
  }

  function StepPlain(s: Lexer, c: char): Lexer
    requires s.Lexer?
  {
    if c == '\n' then Newline(s)
    else if c == ' ' || c == '\t' then EndWord(s)
    else if c == '#' && s.word == None then s.(mode := Comment)
    else if c == '\'' then Keep(s, Single(s.line), "'")
    else if c == '"' then Keep(s, Double(s.line, false), "\"")
    else if c in "`;|&<>" then Rejected(s.line)
    else if c == '\\' then s.(mode := Escape)
    else if c == '(' then
      if s.word.Some? && OpensArray(s.word.value) then
        var e := EndWord(Keep(s, Plain, "("));
        e.(depth := s.depth + 1)
      else Rejected(s.line)
    else if c == ')' then
      if s.depth == 0 then Rejected(s.line)
      else
        var e := EndWord(s);
        e.(words := e.words + [")"], depth := s.depth - 1)
    else Keep(s, Plain, [c])
  }

  function Step(s: Lexer, c: char): Lexer {
    if s.Rejected? then s
    else
      match s.mode
      case Plain => StepPlain(s, c)
      case Comment => if c == '\n' then Newline(s) else s
      case Escape =>
        if c == '\n' then s.(mode := Plain, word := Some(Or(s.word)), line := s.line + 1)
        else Keep(s, Plain, ['\\', c])
      case Single(since) => Count(Keep(s, if c == '\'' then Plain else s.mode, [c]), c)
      case Double(since, dollar) =>
        if c == '`' || (dollar && c == '(') then Rejected(s.line)
        else
          var mode := if c == '"' then Plain else if c == '\\' then DoubleEscape(since) else Double(since, c == '$');
          Count(Keep(s, mode, [c]), c)
      case DoubleEscape(since) => Count(Keep(s, Double(since, false), [c]), c)
  }

  function Run(s: Lexer, text: string): Lexer {
    if text == "" then s else Step(Run(s, text[..|text| - 1]), text[|text| - 1])
  }

  /** The end of the text: an open quote reports the line it opened on, an open array none (0). */
  function Finish(s: Lexer): Result<seq<Stmt>, int> {
    if s.Rejected? then Err(s.at)
    else
      match s.mode
      case Single(since) => Err(since)
      case Double(since, _) => Err(since)
      case DoubleEscape(since) => Err(since)
      case Escape => Ended(Keep(s, Plain, "\\"))
      case Plain => Ended(s)
      case Comment => Ended(s)
  }

  function Ended(s: Lexer): Result<seq<Stmt>, int>
    requires s.Lexer?
  {
    if s.depth > 0 then Err(0) else Ok(EndStmt(s).stmts)
  }

  /** What the automaton makes of a text: its statements, or the line of the first thing refused. */
  function Accept(text: string): Result<seq<Stmt>, int> {
    Finish(Run(START, text))
  }

  lemma RunSnoc(s: Lexer, text: string, c: char)
    ensures Run(s, text + [c]) == Step(Run(s, text), c)
  {
    assert (text + [c])[..|text|] == text;
  }

  lemma {:induction false} RunAppend(s: Lexer, a: string, b: string)
    ensures Run(s, a + b) == Run(Run(s, a), b)
  {
    hide Step;
    if b == "" {
      assert a + b == a;
    } else {
      assert (a + b)[..|a + b| - 1] == a + b[..|b| - 1];
      RunAppend(s, a, b[..|b| - 1]);
    }
  }

  lemma RunNext(text: string, i: nat)
    requires i < |text|
    ensures Run(START, text[..i + 1]) == Step(Run(START, text[..i]), text[i])
  {
    assert text[..i + 1] == text[..i] + [text[i]];
    RunSnoc(START, text[..i], text[i]);
  }

  lemma {:induction false} RejectedStays(s: Lexer, text: string)
    requires s.Rejected?
    ensures Run(s, text) == s
  {
    if text != "" {
      RejectedStays(s, text[..|text| - 1]);
    }
  }

  /** Once a prefix is refused, so is the text. */
  lemma RejectedPrefix(text: string, i: nat)
    requires i <= |text| && Run(START, text[..i]).Rejected?
    ensures Accept(text) == Err(Run(START, text[..i]).at)
  {
    assert text == text[..i] + text[i..];
    RunAppend(START, text[..i], text[i..]);
    RejectedStays(Run(START, text[..i]), text[i..]);
  }

  lemma NewlinesSnoc(text: string, c: char)
    ensures Newlines(text + [c]) == Newlines(text) + (if c == '\n' then 1 else 0)
  {
    assert (text + [c])[..|text|] == text;
  }

  // --------------------------------------------------------------- method --

  /** str.find of one character. */
  method Find(text: string, c: char, from: nat) returns (j: int)
    requires from <= |text|
    ensures j == -1 || (from <= j < |text| && text[j] == c)
    ensures forall k :: from <= k < (if j == -1 then |text| else j) ==> text[k] != c
  {
    j := from;
    while j < |text| && text[j] != c
      invariant from <= j <= |text|
      invariant forall k :: from <= k < j ==> text[k] != c
    {
      j := j + 1;
    }
    if j == |text| {
      j := -1;
    }
  }

  lemma NoNewlines()
    ensures Newlines("") == 0
  {
  }

  lemma QuoteStep(s: Lexer, c: char)
    requires s.Lexer? && s.mode == Plain && (c == '\'' || c == '"')
    ensures Step(s, c)
         == s.(mode := if c == '"' then Double(s.line, false) else Single(s.line), word := Some(Or(s.word) + [c]))
  {
  }

  lemma SingleStep(s: Lexer, c: char)
    requires s.Lexer? && s.mode.Single? && c != '\''
    ensures Step(s, c) == s.(word := Some(Or(s.word) + [c]), line := s.line + (if c == '\n' then 1 else 0))
  {
  }

  /** Inside a single quote the automaton only collects. */
  lemma {:induction false} RunSingle(text: string, i: nat, j: nat, s: Lexer)
    requires i < j <= |text| && Run(START, text[..i]) == s && s.Lexer? && s.mode == Plain
    requires text[i] == '\'' && forall k :: i < k < j ==> text[k] != '\''
    ensures Run(START, text[..j])
         == s.(mode := Single(s.line), word := Some(Or(s.word) + text[i..j]), line := s.line + Newlines(text[i..j]))
  {
    hide Run, Step, Newlines;
    RunNext(text, j - 1);
    assert text[i..j] == text[i..j - 1] + [text[j - 1]];
    NewlinesSnoc(text[i..j - 1], text[j - 1]);
    if j == i + 1 {
      assert text[i..j - 1] == "" && text[i..j] == [text[i]];
      NoNewlines();
      QuoteStep(s, '\'');
    } else {
      RunSingle(text, i, j - 1, s);
      SingleStep(Run(START, text[..j - 1]), text[j - 1]);
      assert Or(s.word) + text[i..j] == Or(s.word) + text[i..j - 1] + [text[j - 1]];
    }
  }

  lemma DoubleStep(s: Lexer, c: char)
    requires s.Lexer? && s.mode.Double?
    requires c != '`' && !(s.mode.dollar && c == '(')
    ensures Step(s, c)
         == s.(mode := if c == '"' then Plain else if c == '\\' then DoubleEscape(s.mode.since)
                       else Double(s.mode.since, c == '$'),
               word := Some(Or(s.word) + [c]), line := s.line + (if c == '\n' then 1 else 0))
  {
  }

  lemma DoubleEscapeStep(s: Lexer, c: char)
    requires s.Lexer? && s.mode.DoubleEscape?
    ensures Step(s, c)
         == s.(mode := Double(s.mode.since, false), word := Some(Or(s.word) + [c]),
               line := s.line + (if c == '\n' then 1 else 0))
  {
  }

  /** The automaton is inside the double quote that opened at i, having collected up to j. */
  ghost predicate InDouble(text: string, i: nat, j: nat, s: Lexer, mode: Mode) {
    && i < j <= |text| && s.Lexer? && (mode.Double? || mode.DoubleEscape?)
    && Run(START, text[..j])
       == s.(mode := mode, word := Some(Or(s.word) + text[i..j]), line := s.line + Newlines(text[i..j]))
  }

  lemma DoubleOpens(text: string, i: nat, s: Lexer)
    requires i < |text| && text[i] == '"' && Run(START, text[..i]) == s && s.Lexer? && s.mode == Plain
    ensures InDouble(text, i, i + 1, s, Double(s.line, false))
  {
    hide Run, Step, Newlines;
    RunNext(text, i);
    QuoteStep(s, '"');
    assert text[i..i + 1] == "" + [text[i]] == [text[i]];
    NewlinesSnoc("", text[i]);
    NoNewlines();
  }

  /** One more character inside a double quote, or the one that closes it. */
  lemma DoubleNext(text: string, i: nat, j: nat, s: Lexer, mode: Mode)
    requires j < |text| && InDouble(text, i, j, s, mode)
    requires mode.Double? ==> text[j] != '`' && !(mode.dollar && text[j] == '(')
    ensures var c := text[j];
            var next := if mode.DoubleEscape? then Double(mode.since, false) else if c == '"' then Plain
                        else if c == '\\' then DoubleEscape(mode.since) else Double(mode.since, c == '$');
            Run(START, text[..j + 1])
            == s.(mode := next, word := Some(Or(s.word) + text[i..j + 1]), line := s.line + Newlines(text[i..j + 1]))
  {
    hide Run, Step, Newlines;
    var q, c := Run(START, text[..j]), text[j];
    RunNext(text, j);
    assert text[i..j + 1] == text[i..j] + [c];
    NewlinesSnoc(text[i..j], c);
    assert Or(s.word) + text[i..j + 1] == Or(s.word) + text[i..j] + [c];
    if mode.Double? {
      DoubleStep(q, c);
    } else {
      DoubleEscapeStep(q, c);
    }
  }

  lemma DoubleRefused(text: string, i: nat, j: nat, s: Lexer, mode: Mode)
    requires j < |text| && InDouble(text, i, j, s, mode) && mode.Double?
             && (text[j] == '`' || (mode.dollar && text[j] == '('))
    ensures Accept(text) == Err(s.line + Newlines(text[i..j]))
  {
    hide Newlines;
    RunNext(text, j);
    RejectedPrefix(text, j + 1);
  }

  /** The inner loop over a double-quoted string: where it ends, or the error it is refused with. */
  method ScanDouble(text: string, i: nat, ghost s: Lexer, line: int) returns (r: Result<nat, int>)
    requires i < |text| && text[i] == '"' && Run(START, text[..i]) == s && s.Lexer? && s.mode == Plain && s.line == line
    ensures r.Ok? ==> i < r.value < |text|
    ensures r.Ok? ==>
              Run(START, text[..r.value + 1])
              == s.(word := Some(Or(s.word) + text[i..r.value + 1]), line := line + Newlines(text[i..r.value + 1]))
    ensures r.Err? ==> Accept(text) == Err(r.error)
  {
    hide Run, Step, Newlines;
    DoubleOpens(text, i, s);
    var j := i + 1;
    ghost var mode := Double(line, false);
    while j < |text| && text[j] != '"'
      invariant i < j <= |text| + 1
      invariant j <= |text| ==> mode.Double? && mode.since == line && InDouble(text, i, j, s, mode)
      invariant j < |text| && mode.Double? && mode.dollar ==> text[j] != '('
      invariant j == |text| + 1 ==> mode == DoubleEscape(line) && InDouble(text, i, |text|, s, mode)
      decreases |text| + 1 - j
    {
      DoubleNextIfFine(text, i, j, s, mode);
      if text[j] == '\\' {
        mode := DoubleEscape(line);
        j := j + 1;
        if j < |text| {
          DoubleNext(text, i, j, s, mode);
          mode := Double(line, false);
        }
      } else if text[j] == '`' || (j + 1 < |text| && text[j] == '$' && text[j + 1] == '(') {
        if text[j] == '`' {
          DoubleRefused(text, i, j, s, mode);
        } else {
          DoubleRefused(text, i, j + 1, s, Double(line, true));
          assert text[i..j + 1] == text[i..j] + [text[j]];
          NewlinesSnoc(text[i..j], text[j]);
        }
        var lines := CountNewlines(text[i..j]);
        return Err(line + lines);
      } else {
        mode := Double(line, text[j] == '$');
      }
      j := j + 1;
    }
    assert text[..|text|] == text;
    if j >= |text| {
      Unterminated(text, line);
      return Err(line);
    }
    DoubleNext(text, i, j, s, mode);
    return Ok(j);
  }

  lemma DoubleNextIfFine(text: string, i: nat, j: nat, s: Lexer, mode: Mode)
    requires j < |text| && mode.Double? && InDouble(text, i, j, s, mode) && text[j] != '"'
    requires mode.dollar ==> text[j] != '('
    ensures text[j] != '`' ==>
              InDouble(text, i, j + 1, s,
                       if text[j] == '\\' then DoubleEscape(mode.since) else Double(mode.since, text[j] == '$'))
  {
    hide Run, Step, Newlines;
    if text[j] != '`' {
      DoubleNext(text, i, j, s, mode);
    }
  }

  lemma Unterminated(text: string, line: int)
    requires var q := Run(START, text);
             q.Lexer? && (q.mode == Single(line) || q.mode == Double(line, true) || q.mode == Double(line, false)
                          || q.mode == DoubleEscape(line))
    ensures Accept(text) == Err(line)
  {
  }

  /** text.count("\n"). */
  method CountNewlines(text: string) returns (n: nat)
    ensures n == Newlines(text)
  {
    n := 0;
    for k := 0 to |text|
      invariant n == Newlines(text[..k])
    {
      assert text[..k + 1] == text[..k] + [text[k]];
      NewlinesSnoc(text[..k], text[k]);
      if text[k] == '\n' {
        n := n + 1;
      }
    }
    assert text[..|text|] == text;
  }

  /** The automaton is between tokens at i, with what the scan holds, or in a
      comment that ends there, which comes to the same. */
  ghost predicate At(text: string, i: nat, s: Lexer) {
    && i <= |text| && s.Lexer? && s.mode == Plain
    && (|| Run(START, text[..i]) == s
        || (Run(START, text[..i]) == s.(mode := Comment) && s.word == None && (i < |text| ==> text[i] == '\n')))
  }

  lemma PlainNext(text: string, i: nat, s: Lexer)
    requires At(text, i, s) && i < |text|
    ensures Run(START, text[..i + 1]) == StepPlain(s, text[i])
    ensures StepPlain(s, text[i]).Rejected? ==> Accept(text) == Err(s.line)
    ensures StepPlain(s, text[i]).Lexer? && StepPlain(s, text[i]).mode == Plain
            ==> At(text, i + 1, StepPlain(s, text[i]))
  {
    RunNext(text, i);
    if StepPlain(s, text[i]).Rejected? {
      RejectedPrefix(text, i + 1);
    }
  }

  /** "$(" outside quotes: the automaton keeps the dollar and refuses the parenthesis, on the same line. */
  lemma DollarRefused(text: string, i: nat, s: Lexer)
    requires At(text, i, s) && i + 1 < |text| && text[i] == '$' && text[i + 1] == '('
    ensures Accept(text) == Err(s.line)
  {
    PlainNext(text, i, s);
    var kept := StepPlain(s, '$');
    EndsInDollar(Or(s.word) + "$");
    PlainNext(text, i + 1, kept);
  }

  lemma EndsInDollar(w: string)
    requires w != "" && w[|w| - 1] == '$'
    ensures !OpensArray(w)
  {
  }

  lemma CommentNext(text: string, i: nat, s: Lexer)
    requires i < |text| && s.Lexer? && s.word == None
    requires (Run(START, text[..i]) == s && s.mode == Plain && text[i] == '#')
          || (Run(START, text[..i]) == s && s.mode == Comment && text[i] != '\n')
    ensures Run(START, text[..i + 1]) == s.(mode := Comment)
  {
    RunNext(text, i);
  }

  lemma EscapeNext(text: string, i: nat, s: Lexer)
    requires At(text, i, s) && i < |text| && text[i] == '\\'
    ensures i + 1 == |text| ==> Accept(text) == Finish(Keep(s, Plain, "\\"))
    ensures i + 1 < |text| ==>
              At(text, i + 2, if text[i + 1] == '\n' then s.(word := Some(Or(s.word)), line := s.line + 1)
                              else Keep(s, Plain, text[i..i + 2]))
  {
    hide Run;
    RunNext(text, i);
    if i + 1 < |text| {
      RunNext(text, i + 1);
      assert text[i..i + 2] == [text[i], text[i + 1]];
    } else {
      assert text[..i + 1] == text;
    }
  }

  lemma SingleCloses(text: string, i: nat, j: nat, s: Lexer)
    requires At(text, i, s) && i < j < |text| && text[i] == '\'' && text[j] == '\''
    requires forall k :: i < k < j ==> text[k] != '\''
    ensures At(text, j + 1, s.(word := Some(Or(s.word) + text[i..j + 1]), line := s.line + Newlines(text[i..j])))
  {
    hide Run, Newlines;
    RunSingle(text, i, j, s);
    RunNext(text, j);
    assert Or(s.word) + text[i..j + 1] == Or(s.word) + text[i..j] + [text[j]];
  }

  lemma SingleUnterminated(text: string, i: nat, s: Lexer)
    requires At(text, i, s) && i < |text| && text[i] == '\''
    requires forall k :: i < k < |text| ==> text[k] != '\''
    ensures Accept(text) == Err(s.line)
  {
    RunSingle(text, i, |text|, s);
    assert text[..|text|] == text;
    Unterminated(text, s.line);
  }

  method EndOfWord(word: Option<string>, words: seq<string>) returns (w: Option<string>, ws: seq<string>)
    ensures w == None
    ensures ws == if word.Some? then words + [word.value] else words
  {
    w, ws := None, words;
    if word.Some? {
      ws := words + [word.value];
    }
  }

  /** scan: statements as (line, words), or the line of the first thing a recipe must not contain. */
  method Scan(text: string) returns (r: Result<seq<Stmt>, int>)
    ensures r == Accept(text)
  {
    hide Run, Step, Newlines, OpensArray;
    var stmts: seq<Stmt>, words: seq<string>, word: Option<string>, lineNo := [], [], None, 1;
    var i, n, depth, startLine := 0, |text|, 0, 1;
    StartsAt(text);
    while i < n
      invariant At(text, i, Lexer(Plain, word, words, stmts, lineNo, startLine, depth))
      decreases n - i
    {
      ghost var s := Lexer(Plain, word, words, stmts, lineNo, startLine, depth);
      var c := text[i];
      PlainNext(text, i, s);
      if c == '\n' {
        lineNo := lineNo + 1;
        word, words := EndOfWord(word, words);
        if depth == 0 {
          if words != [] {
            stmts := stmts + [Stmt(startLine, words)];
          }
          words := [];
          startLine := lineNo;
        }
        i := i + 1;
      } else if c == ' ' || c == '\t' {
        word, words := EndOfWord(word, words);
        i := i + 1;
      } else if c == '#' && word == None {
        ghost var from := i;
        while i < n && text[i] != '\n'
          invariant from <= i <= n
          invariant Run(START, text[..i]) == (if i == from then s else s.(mode := Comment))
        {
          CommentNext(text, i, if i == from then s else s.(mode := Comment));
          i := i + 1;
        }
      } else if c == '\'' {
        var j := Find(text, '\'', i + 1);
        if j == -1 {
          SingleUnterminated(text, i, s);
          return Err(lineNo);
        }
        SingleCloses(text, i, j, s);
        word := Some(Or(word) + text[i..j + 1]);
        var lines := CountNewlines(text[i..j]);
        lineNo := lineNo + lines;
        i := j + 1;
      } else if c == '"' {
        var q := ScanDouble(text, i, s, lineNo);
        if q.Err? {
          return Err(q.error);
        }
        word := Some(Or(word) + text[i..q.value + 1]);
        var lines := CountNewlines(text[i..q.value + 1]);
        lineNo := lineNo + lines;
        i := q.value + 1;
      } else if c == '`' || (i + 1 < n && text[i + 1] == '(' && (c == '$' || c == '<' || c == '>')) {
        if c == '$' {
          DollarRefused(text, i, s);
        }
        return Err(lineNo);
      } else if c in ";|&<>" {
        return Err(lineNo);
      } else if c == '\\' && i + 1 < n {
        EscapeNext(text, i, s);
        word := Some(Or(word) + text[i..i + 2]);
        if text[i + 1] == '\n' {
          lineNo := lineNo + 1;
          word := Some(word.value[..|word.value| - 2]);
        }
        i := i + 2;
      } else if c == '(' {
        if word.Some? && OpensArray(word.value) {
          word := Some(word.value + "(");
          depth := depth + 1;
          i := i + 1;
          word, words := EndOfWord(word, words);
        } else {
          return Err(lineNo);
        }
      } else if c == ')' {
        if depth == 0 {
          return Err(lineNo);
        }
        depth := depth - 1;
        word, words := EndOfWord(word, words);
        words := words + [")"];
        i := i + 1;
      } else {
        word := Some(Or(word) + [c]);
        if c == '\\' {
          EscapeNext(text, i, s);
          r := Close(Keep(s, Plain, "\\"), word, words, stmts, startLine, depth);
          return;
        }
        i := i + 1;
      }
    }
    assert text[..n] == text;
    r := Close(Run(START, text), word, words, stmts, startLine, depth);
  }

  lemma StartsAt(text: string)
    ensures At(text, 0, START)
  {
    assert text[..0] == "";
  }

  /** The end of the text, outside quotes. */
  method Close(ghost s: Lexer, word: Option<string>, words: seq<string>, stmts: seq<Stmt>, startLine: int, depth: nat)
    returns (r: Result<seq<Stmt>, int>)
    requires s.Lexer? && (s.mode == Plain || s.mode == Comment) && s.word == word && s.words == words
             && s.stmts == stmts
    requires s.start == startLine && s.depth == depth
    ensures r == Finish(s)
  {
    if depth > 0 {
      return Err(0);
    }
    var w, ws := EndOfWord(word, words);
    r := Ok(if ws != [] then stmts + [Stmt(startLine, ws)] else stmts);
  }
}
