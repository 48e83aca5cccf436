/** py/keep.py's with_block: one marked block at the end of a user's crontab, set or taken out. */
module Crontab {
  import opened Prelude
  import opened Text

  const BEGIN := "# >>> dgx-serve keep"
  const END := "# <<< dgx-serve keep"

  /** A character str.splitlines ends a line at. */
  predicate IsBreak(c: char) {
    || '\n' <= c <= '\r' || '\U{1c}' <= c <= '\U{1e}' || c == '\U{85}' || c == '\U{2028}' || c == '\U{2029}'
  }

  /** The characters of the first line. */
  function LineLength(s: string): (n: nat)
    ensures n <= |s|
    ensures forall k :: 0 <= k < n ==> !IsBreak(s[k])
    ensures n < |s| ==> IsBreak(s[n])
  {
    if s == "" || IsBreak(s[0]) then 0 else 1 + LineLength(s[1..])
  }

  /** str.splitlines: a carriage return and a newline together end one line. */
  function Lines(s: string): seq<string> {
    var n := LineLength(s);
    if s == "" then []
    else if n == |s| then [s]
    else [s[..n]] + Lines(s[n + (if s[n] == '\r' && n + 1 < |s| && s[n + 1] == '\n' then 2 else 1)..])
  }

  /** Each line with its newline. */
  function Joined(lines: seq<string>): string {
    if lines == [] then "" else lines[0] + "\n" + Joined(lines[1..])
  }

  predicate Plain(line: string) { forall k :: 0 <= k < |line| ==> !IsBreak(line[k]) }

  predicate IsMarker(line: string) { Strip(line) == BEGIN || Strip(line) == END }

  /** Whether the lines end inside a block: after a BEGIN with no END since. */
  function Inside(lines: seq<string>): bool {
    if lines == [] then false
    else
      var last := Strip(lines[|lines| - 1]);
      if last == BEGIN then true else if last == END then false else Inside(lines[..|lines| - 1])
  }

  /** The lines outside every block, markers gone. */
  function Outside(lines: seq<string>): seq<string> {
    if lines == [] then []
    else
      var init, last := lines[..|lines| - 1], lines[|lines| - 1];
      if IsMarker(last) || Inside(init) then Outside(init) else Outside(init) + [last]
  }

  function Trimmed(lines: seq<string>): (t: seq<string>)
    ensures t <= lines
    ensures t != [] ==> !Blank(t[|t| - 1])
    ensures forall k :: |t| <= k < |lines| ==> Blank(lines[k])
  {
    if lines == [] || !Blank(lines[|lines| - 1]) then lines else Trimmed(lines[..|lines| - 1])
  }

  /** The user's own lines. */
  function Own(text: string): seq<string> { Trimmed(Outside(Lines(text))) }

  function Block(line: string): seq<string> { [BEGIN, line, END] }

  function Set(own: seq<string>, line: Option<string>): seq<string> {
    if line == None || line.value == "" then own
    else own + (if own == [] then [] else [""]) + Block(line.value)
  }

  function With(text: string, line: Option<string>): string { Joined(Set(Own(text), line)) }

  lemma NothingOutside()
    ensures Outside([]) == [] && !Inside([])
  {
  }

  /** The loop with the inside flag. */
  method OutsideLines(lines: seq<string>) returns (out: seq<string>)
    ensures out == Outside(lines)
  {
    hide *;
    var inside := false;
    out := [];
    assert lines[..0] == [];
    NothingOutside();
    MarkerStrips();
    for i := 0 to |lines|
      invariant out == Outside(lines[..i]) && inside == Inside(lines[..i])
    {
      var ln := lines[i];
      OutsideSnoc(lines[..i], ln);
      MarkerIs(ln);
      assert lines[..i] + [ln] == lines[..i + 1];
      if Strip(ln) == BEGIN {
        inside := true;
      } else if Strip(ln) == END {
        inside := false;
      } else if !inside {
        out := out + [ln];
      }
    }
    assert lines[..|lines|] == lines;
  }

  /** The loop that drops the blank lines at the end. */
  method DropBlanks(lines: seq<string>) returns (out: seq<string>)
    ensures out == Trimmed(lines)
  {
    hide Trimmed, Blank;
    out := lines;
    while out != [] && Blank(out[|out| - 1])
      invariant Trimmed(out) == Trimmed(lines)
    {
      TrimmedNext(out);
      out := out[..|out| - 1];
    }
    TrimmedNext(out);
  }

  method WithBlock(crontab: string, line: Option<string>) returns (r: string)
    ensures r == With(crontab, line)
  {
    hide Outside, Trimmed, Lines, Joined;
    var out := OutsideLines(Lines(crontab));
    out := DropBlanks(out);
    if line.Some? && line.value != "" {
      out := out + (if out != [] then [""] else []) + [BEGIN, line.value, END];
    }
    r := Joined(out);
  }

  lemma TrimmedNext(lines: seq<string>)
    ensures Trimmed(lines)
         == if lines == [] || !Blank(lines[|lines| - 1]) then lines else Trimmed(lines[..|lines| - 1])
  {
  }

  lemma LengthIs(s: string, n: nat)
    requires n < |s| && Plain(s[..n]) && IsBreak(s[n])
    ensures LineLength(s) == n
  {
    assert forall k :: 0 <= k < n ==> s[k] == s[..n][k];
  }

  lemma FirstLine(line: string, rest: string)
    requires Plain(line)
    ensures Lines(line + "\n" + rest) == [line] + Lines(rest)
  {
    var s, n := line + "\n" + rest, |line|;
    assert s[..n] == line && s[n] == '\n' && s[n + 1..] == rest;
    LengthIs(s, n);
  }

  /** A line ends at a newline, at a carriage return, and at both together as at one. */
  lemma LineEnds(line: string, rest: string)
    requires Plain(line)
    ensures Lines(line + "\r\n" + rest) == [line] + Lines(rest)
    ensures rest == "" || rest[0] != '\n' ==> Lines(line + "\r" + rest) == [line] + Lines(rest)
  {
    var s, r, n := line + "\r\n" + rest, line + "\r" + rest, |line|;
    assert s[..n] == line && s[n] == '\r' && s[n + 1] == '\n' && s[n + 2..] == rest;
    assert r[..n] == line && r[n] == '\r' && r[n + 1..] == rest;
    LengthIs(s, n);
    LengthIs(r, n);
    assert rest != "" ==> r[n + 1] == rest[0];
  }

  lemma {:induction false} LinesJoined(lines: seq<string>)
    requires forall k :: 0 <= k < |lines| ==> Plain(lines[k])
    ensures Lines(Joined(lines)) == lines
  {
    if lines != [] {
      LinesJoined(lines[1..]);
      FirstLine(lines[0], Joined(lines[1..]));
      assert lines == [lines[0]] + lines[1..];
    }
  }

  lemma {:induction false} LinesPlain(s: string)
    ensures forall k :: 0 <= k < |Lines(s)| ==> Plain(Lines(s)[k])
    decreases |s|
  {
    if s != "" {
      var first, rest := LinesUnfold(s);
      hide Plain, Lines;
      LinesPlain(rest);
    }
  }

  lemma LinesUnfold(s: string) returns (first: string, rest: string)
    requires s != ""
    ensures |rest| < |s| && Plain(first) && Lines(s) == [first] + Lines(rest)
  {
    var n := LineLength(s);
    first, rest := s[..n], "";
    FirstPlain(s);
    hide LineLength, Plain, IsBreak;
    if n == |s| {
      assert first == s;
      assert Lines(rest) == [];
    } else {
      rest := s[n + (if s[n] == '\r' && n + 1 < |s| && s[n + 1] == '\n' then 2 else 1)..];
    }
  }

  lemma FirstPlain(s: string)
    ensures Plain(s[..LineLength(s)])
  {
    hide IsBreak;
  }

  /** Line k opens a block that no later line closes. */
  ghost predicate OpensAt(lines: seq<string>, k: nat) {
    k < |lines| && Strip(lines[k]) == BEGIN && forall j :: k < j < |lines| ==> Strip(lines[j]) != END
  }

  lemma {:induction false} InsideFrom(lines: seq<string>) returns (k: nat)
    requires Inside(lines)
    ensures OpensAt(lines, k)
  {
    hide Strip;
    k := |lines| - 1;
    if Strip(lines[k]) != BEGIN {
      k := InsideFrom(lines[..|lines| - 1]);
    }
  }

  lemma {:induction false} InsideOf(lines: seq<string>, k: nat)
    requires OpensAt(lines, k)
    ensures Inside(lines)
  {
    hide Strip;
    if k < |lines| - 1 {
      InsideOf(lines[..|lines| - 1], k);
    }
  }

  /** The last line survives exactly when it is no marker and no block above it is still open. */
  lemma SurvivesWhen(lines: seq<string>)
    requires lines != []
    ensures var init, last := lines[..|lines| - 1], lines[|lines| - 1];
            Outside(lines) == if IsMarker(last) || (exists k :: OpensAt(init, k)) then Outside(init)
                else Outside(init) + [last]
  {
    hide OpensAt, IsMarker;
    var init := lines[..|lines| - 1];
    if Inside(init) {
      var k := InsideFrom(init);
    }
    forall k | OpensAt(init, k)
      ensures Inside(init)
    {
      InsideOf(init, k);
    }
  }

  predicate NoMarkers(lines: seq<string>) { forall k :: 0 <= k < |lines| ==> !IsMarker(lines[k]) }

  lemma {:induction false} OutsideProps(lines: seq<string>)
    ensures NoMarkers(Outside(lines))
    ensures forall x :: x in Outside(lines) ==> x in lines
  {
    if lines != [] {
      OutsideProps(lines[..|lines| - 1]);
    }
  }

  lemma {:induction false} OutsideKeeps(lines: seq<string>)
    requires NoMarkers(lines)
    ensures Outside(lines) == lines && !Inside(lines)
  {
    hide IsMarker, Strip, BEGIN, END;
    if lines != [] {
      OutsideKeeps(lines[..|lines| - 1]);
      MarkerIs(lines[|lines| - 1]);
    }
  }

  lemma MarkerIs(ln: string)
    ensures IsMarker(ln) <==> Strip(ln) == BEGIN || Strip(ln) == END
  {
    hide Strip;
  }

  lemma OutsideIdentity(lines: seq<string>)
    ensures NoMarkers(lines) ==> Outside(lines) == lines && !Inside(lines)
    ensures Outside(lines) == lines ==> NoMarkers(lines)
  {
    hide Outside, Inside, IsMarker;
    OutsideProps(lines);
    if NoMarkers(lines) {
      OutsideKeeps(lines);
    }
  }

  /** Lines after a BEGIN with no END. */
  lemma {:induction false} OutsideOpen(a: seq<string>, b: seq<string>)
    requires Inside(a) && forall k :: 0 <= k < |b| ==> Strip(b[k]) != END
    ensures Outside(a + b) == Outside(a) && Inside(a + b)
  {
    if b == [] {
      assert a + b == a;
    } else {
      assert (a + b)[..|a + b| - 1] == a + b[..|b| - 1];
      OutsideOpen(a, b[..|b| - 1]);
    }
  }

  lemma StripVisible(s: string)
    requires s != "" && !IsSpace(s[0]) && !IsSpace(s[|s| - 1])
    ensures Strip(s) == s
  {
    hide IsSpace;
    StripIndented("", s);
    assert "" + s == s;
  }

  lemma MarkerStrips()
    ensures Strip(BEGIN) == BEGIN && Strip(END) == END && BEGIN != END
    ensures Plain(BEGIN) && Plain(END)
  {
    BeginStrips();
    EndStrips();
    hide *;
  }

  lemma BeginStrips()
    ensures Strip(BEGIN) == BEGIN && Plain(BEGIN) && |BEGIN| > 2 && BEGIN[2] == '>'
  {
    hide Strip, Lead, TrimEnd;
    StripVisible(BEGIN);
  }

  lemma EndStrips()
    ensures Strip(END) == END && Plain(END) && |END| > 2 && END[2] == '<'
  {
    hide Strip, Lead, TrimEnd;
    StripVisible(END);
  }

  lemma MarkerMarks()
    ensures IsMarker(BEGIN) && IsMarker(END)
  {
    hide Strip;
    MarkerStrips();
  }

  /** A line the block can hold. */
  predicate Usable(line: string) { line != "" && Plain(line) && Strip(line) != END }

  lemma {:induction false} OutsideSnoc(lines: seq<string>, line: string)
    ensures Outside(lines + [line]) == if IsMarker(line) || Inside(lines) then Outside(lines)
            else Outside(lines) + [line]
    ensures Strip(line) == BEGIN ==> Inside(lines + [line])
    ensures Strip(line) == END && BEGIN != END ==> !Inside(lines + [line])
    ensures !IsMarker(line) ==> Inside(lines + [line]) == Inside(lines)
  {
    hide Strip;
    assert (lines + [line])[..|lines|] == lines;
  }

  lemma OutsideBlock(lines: seq<string>, line: string)
    requires !Inside(lines) && Usable(line)
    ensures Outside(lines + Block(line)) == Outside(lines)
  {
    hide Strip, Outside, Inside;
    MarkerStrips();
    MarkerMarks();
    OutsideSnoc(lines, BEGIN);
    OutsideSnoc(lines + [BEGIN], line);
    OutsideSnoc(lines + [BEGIN] + [line], END);
    OutsideOpen(lines + [BEGIN], [line]);
    assert lines + Block(line) == lines + [BEGIN] + [line] + [END];
  }

  lemma SetOutside(own: seq<string>, line: Option<string>)
    requires NoMarkers(own) && Trimmed(own) == own && (line.Some? ==> line.value == "" || Usable(line.value))
    ensures Trimmed(Outside(Set(own, line))) == own
  {
    hide Strip, Outside, Inside, Usable;
    OutsideIdentity(own);
    if line.Some? && line.value != "" {
      EmptyIsBlank();
      if own == [] {
        OutsideBlock([], line.value);
        assert own + [] + Block(line.value) == [] + Block(line.value);
      } else {
        OutsideSnoc(own, "");
        OutsideBlock(own + [""], line.value);
        assert (own + [""])[..|own|] == own;
      }
    }
  }

  lemma EmptyIsBlank()
    ensures Blank("") && !IsMarker("")
  {
  }

  lemma SetPlain(text: string, line: Option<string>)
    requires line.Some? ==> line.value == "" || Usable(line.value)
    ensures Lines(With(text, line)) == Set(Own(text), line)
  {
    hide Lines, Joined, Outside, Strip, Blank, IsMarker, Plain;
    OwnPlain(text);
    MarkerStrips();
    PlainEmpty();
    LinesJoined(Set(Own(text), line));
  }

  lemma OwnPlain(text: string)
    ensures forall k :: 0 <= k < |Own(text)| ==> Plain(Own(text)[k])
  {
    hide Lines, Outside, Plain, Trimmed;
    LinesPlain(text);
    OutsideProps(Lines(text));
    var lines, own := Lines(text), Own(text);
    forall k | 0 <= k < |own|
      ensures Plain(own[k])
    {
      assert own[k] == Outside(lines)[k];
      assert own[k] in lines;
    }
  }

  lemma PlainEmpty()
    ensures Plain("")
  {
  }

  lemma TrimmedTwice(lines: seq<string>)
    ensures Trimmed(Trimmed(lines)) == Trimmed(lines)
  {
  }

  lemma OwnPrefix(text: string)
    ensures NoMarkers(Own(text)) && Trimmed(Own(text)) == Own(text)
  {
    hide Lines, Outside, IsMarker, Trimmed;
    OutsideProps(Lines(text));
    TrimmedTwice(Outside(Lines(text)));
  }

  /** Setting the block leaves the user's own lines as they were: only trailing blank lines go. */
  lemma OwnKept(text: string, line: Option<string>)
    requires line.Some? ==> line.value == "" || Usable(line.value)
    ensures Own(With(text, line)) == Own(text)
  {
    hide With, Lines, Outside, Trimmed, NoMarkers, Usable, Set;
    OwnPrefix(text);
    SetPlain(text, line);
    SetOutside(Own(text), line);
  }

  /** The line that was set stands between the markers, after the user's own lines and one empty line, and nothing
      follows. */
  lemma BlockStands(text: string, line: string)
    requires Usable(line)
    ensures var ls, own := Lines(With(text, Some(line))), Own(text);
            && |ls| == |own| + (if own == [] then 3 else 4)
            && ls[..|own|] == own && (own != [] ==> ls[|own|] == "")
            && ls[|ls| - 3..] == ["# >>> dgx-serve keep", line, "# <<< dgx-serve keep"]
            && With(text, Some(line)) != "" && With(text, Some(line))[|With(text, Some(line))| - 1] == '\n'
  {
    hide Lines, Own, Strip, Plain, With, Joined;
    SetPlain(text, Some(line));
    SetEnds(Own(text), line);
    WithIs(text, Some(line));
    JoinedEnds(Set(Own(text), Some(line)));
  }

  lemma WithIs(text: string, line: Option<string>)
    ensures With(text, line) == Joined(Set(Own(text), line))
  {
    hide Joined, Set, Own;
  }

  lemma SetEnds(own: seq<string>, line: string)
    requires line != ""
    ensures var ls := Set(own, Some(line));
            && |ls| == |own| + (if own == [] then 3 else 4)
            && ls[..|own|] == own && (own != [] ==> ls[|own|] == "")
            && ls[|ls| - 3..] == [BEGIN, line, END]
  {
    var ls := Set(own, Some(line));
    assert ls == own + (if own == [] then [] else [""]) + [BEGIN, line, END];
  }

  lemma {:induction false} JoinedEnds(lines: seq<string>)
    ensures lines != [] ==> Joined(lines) != "" && Joined(lines)[|Joined(lines)| - 1] == '\n'
  {
    if |lines| > 1 {
      JoinedEnds(lines[1..]);
    }
  }

  /** The characters that end a line. */
  lemma BreaksAre(c: char)
    ensures IsBreak(c) <==> c in "\n\r\U{0b}\U{0c}\U{1c}\U{1d}\U{1e}\U{85}\U{2028}\U{2029}"
  {
  }

  /** The last setting wins: turning it on again, to another line or off, is as if it had not been on before. */
  lemma LastSettingWins(text: string, line: Option<string>, next: Option<string>)
    requires line.Some? ==> line.value == "" || Usable(line.value)
    ensures With(With(text, line), next) == With(text, next)
  {
    OwnKept(text, line);
  }

  /** A crontab of whole lines, with no marker and no blank line at its end. */
  predicate Tidy(text: string) {
    && text == Joined(Lines(text))
    && NoMarkers(Lines(text))
    && (Lines(text) == [] || !Blank(Lines(text)[|Lines(text)| - 1]))
  }

  /** Turning it on and off gives the text back exactly when the text was tidy. */
  lemma OnThenOff(text: string, line: string)
    requires Usable(line)
    ensures With(With(text, Some(line)), None) == text <==> Tidy(text)
  {
    LastSettingWins(text, Some(line), None);
    SetPlain(text, None);
    OutsideProps(Lines(text));
    if With(text, None) == text {
      assert Lines(text) == Own(text);
    } else if Tidy(text) {
      OutsideIdentity(Lines(text));
      assert false;
    }
  }

  /** What follows a BEGIN that no END closes is lost. */
  lemma UnclosedLosesRest(a: seq<string>, b: seq<string>, line: Option<string>)
    requires (forall k :: 0 <= k < |a| ==> Plain(a[k]))
             && (forall k :: 0 <= k < |b| ==> Plain(b[k]) && Strip(b[k]) != END)
    ensures With(Joined(a + [BEGIN] + b), line) == With(Joined(a), line)
  {
    hide Lines, Joined, Outside, Inside, Strip, Trimmed, Plain, IsMarker, Set, BEGIN, END;
    MarkerStrips();
    AllPlain(a, BEGIN, b);
    LinesJoined(a + [BEGIN] + b);
    LinesJoined(a);
    OpenLost(a, b);
  }

  lemma AllPlain(a: seq<string>, ln: string, b: seq<string>)
    requires (forall k :: 0 <= k < |a| ==> Plain(a[k])) && Plain(ln) && (forall k :: 0 <= k < |b| ==> Plain(b[k]))
    ensures forall k :: 0 <= k < |a + [ln] + b| ==> Plain((a + [ln] + b)[k])
  {
    hide Plain;
  }

  lemma OpenLost(a: seq<string>, b: seq<string>)
    requires forall k :: 0 <= k < |b| ==> Strip(b[k]) != END
    ensures Outside(a + [BEGIN] + b) == Outside(a)
  {
    hide Outside, Inside, Strip, IsMarker;
    MarkerStrips();
    MarkerMarks();
    OutsideSnoc(a, BEGIN);
    OutsideOpen(a + [BEGIN], b);
  }
}
