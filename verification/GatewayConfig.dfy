/** A whole config seen as its parts: the lines before the managed block, the block, and the lines after it, with
    model_list anywhere; and what rack finds in each. */
module GatewayConfig {
  import opened Prelude
  import opened Text
  import opened Gateway
  import opened GatewayItems

  datatype Parts = Parts(front: seq<string>, begin: string, managed: seq<string>, end: string, back: seq<string>)

  /** The block, markers included. */
  function Inner(p: Parts): seq<string> { [p.begin] + p.managed + [p.end] }

  function Lines(p: Parts): seq<string> { p.front + Inner(p) + p.back }

  predicate Unmarked(ls: seq<string>) {
    forall k :: 0 <= k < |ls| ==> Strip(ls[k]) != BEGIN && Strip(ls[k]) != END
  }

  predicate Stays(ls: seq<string>) {
    forall k :: 0 <= k < |ls| ==> !LeavesSection(ls[k])
  }

  /** The markers are where the parts say, and nowhere else. */
  predicate Marked(p: Parts) {
    && Strip(p.begin) == BEGIN && Strip(p.end) == END
    && Unmarked(p.front) && Unmarked(p.managed) && Unmarked(p.back)
  }

  /** And there is a model_list, wherever it is and whatever it holds. */
  predicate Sited(p: Parts) { Marked(p) && ModelListAt(Lines(p)).Some? }

  function First(p: Parts): nat { |p.front| }

  function Last(p: Parts): nat { |p.front| + 1 + |p.managed| }

  /** After the model_list line: where it begins among the lines before the block, in it, and after it; at the end of
      those that come before the line. */
  function UpperAt(p: Parts): (n: nat)
    ensures n <= |p.front|
  {
    AtWithin(p.front);
    if ModelListAt(p.front).Some? then ModelListAt(p.front).value + 1 else |p.front|
  }

  function MiddleAt(p: Parts): (n: nat)
    ensures n <= |p.managed| + 2
  {
    AtWithin(p.managed);
    if ModelListAt(p.front).Some? then 0
    else if ModelListAt(p.managed).Some? then ModelListAt(p.managed).value + 2
    else |p.managed| + 2
  }

  function LowerAt(p: Parts): (n: nat)
    ensures n <= |p.back|
  {
    AtWithin(p.back);
    if ModelListAt(p.front).Some? || ModelListAt(p.managed).Some? then 0
    else if ModelListAt(p.back).Some? then ModelListAt(p.back).value + 1
    else |p.back|
  }

  function Upper(p: Parts): seq<string> { p.front[UpperAt(p)..] }

  function Middle(p: Parts): seq<string> { Inner(p)[MiddleAt(p)..] }

  function Lower(p: Parts): seq<string> { p.back[LowerAt(p)..] }

  /** The lines after model_list's, and where they begin. */
  function Rest(p: Parts): seq<string> { Upper(p) + (Middle(p) + Lower(p)) }

  function Base(p: Parts): nat { UpperAt(p) + MiddleAt(p) + LowerAt(p) }

  /** What rack takes of each for part of model_list: up to a line at column 0. */
  function SeenUpper(p: Parts): seq<string> { Upper(p)[..SectionLength(Upper(p))] }

  function SeenMiddle(p: Parts): seq<string> {
    if Stays(Upper(p)) then Middle(p)[..SectionLength(Middle(p))] else []
  }

  function SeenLower(p: Parts): seq<string> {
    if Stays(Upper(p)) && Stays(Middle(p)) then Lower(p)[..SectionLength(Lower(p))] else []
  }

  /** The last item above the block is held open to its begin marker, and takes it in. */
  predicate UpperHeld(p: Parts) {
    Stays(Upper(p)) && !LeavesSection(p.begin) && HeldOpen(Upper(p), Lead(p.begin))
  }

  /** How many lines below the block an item of it, or from above it, takes in. */
  function Lost(p: Parts): (n: nat)
    ensures n <= |SeenLower(p)|
  {
    Past(SeenLower(p), OpenDash(Upper(p) + Middle(p)))
  }

  /** No item above takes the block in, and the last one in it takes in none below. */
  predicate Whole(p: Parts) { Sited(p) && !UpperHeld(p) && Items(SeenLower(p)[..Lost(p)]) == [] }

  // --------------------------------------------------- finding the parts --

  lemma MarkerStrips()
    ensures BEGIN != "" && BEGIN[0] == '#' && !IsSpace(BEGIN[0]) && !IsSpace(BEGIN[|BEGIN| - 1])
    ensures END != "" && END[0] == '#' && !IsSpace(END[0]) && !IsSpace(END[|END| - 1])
    ensures BEGIN != END
  {
    assert BEGIN[2] == '>' && END[2] == '<';
  }

  /** A marker line is visible, and no list item. */
  lemma MarkerLine(ln: string)
    requires Strip(ln) == BEGIN || Strip(ln) == END
    ensures !Blank(ln) && ItemName(ln) == None
  {
    MarkerStrips();
    StripStarts(ln);
  }

  lemma MarkerNoList(ln: string)
    requires Strip(ln) == BEGIN || Strip(ln) == END
    ensures !IsModelList(ln)
  {
    MarkerStrips();
    if IsModelList(ln) {
      assert ln[0] == SECTION[0] == 'm';
      LeadUnique(ln, 0);
      StripStarts(ln);
    }
  }

  lemma {:induction false} ModelListJoined(a: seq<string>, b: seq<string>)
    ensures ModelListAt(a + b) ==
            if ModelListAt(a).Some? then ModelListAt(a)
            else if ModelListAt(b).Some? then Some(|a| + ModelListAt(b).value) else None
  {
    hide IsModelList;
    if a == [] {
      assert a + b == b;
    } else {
      assert (a + b)[1..] == a[1..] + b;
      ModelListJoined(a[1..], b);
    }
  }

  lemma {:induction false} NoModelLists(ls: seq<string>)
    requires forall k :: 0 <= k < |ls| ==> !IsModelList(ls[k])
    ensures ModelListAt(ls) == None
  {
    hide IsModelList;
    if ls != [] {
      NoModelLists(ls[1..]);
    }
  }

  /** An entry holds no model_list line. */
  lemma EntryNoList(t: seq<string>, name: string)
    requires IsEntry(t, name)
    ensures ModelListAt(t) == None
  {
    hide ItemName;
    forall k | 0 <= k < |t|
      ensures !IsModelList(t[k])
    {
      if IsModelList(t[k]) {
        ListLine(t[k]);
        assert false;
      }
    }
    NoModelLists(t);
  }

  /** A model_list line is at column 0 and no item. */
  lemma ListLine(ln: string)
    requires IsModelList(ln)
    ensures Lead(ln) == 0 && !Blank(ln) && ItemName(ln) == None && LeavesSection(ln)
  {
    assert ln[0] == SECTION[0] == 'm';
    LeadUnique(ln, 0);
  }

  /** Line numbers moved down. */
  function Down(at: seq<nat>, d: nat): seq<nat> {
    seq(|at|, k requires 0 <= k < |at| => at[k] + d)
  }

  lemma {:induction false} WhereJoined(a: seq<string>, b: seq<string>, marker: string)
    ensures Where(a + b, marker) == Where(a, marker) + Down(Where(b, marker), |a|)
  {
    hide Strip;
    if b == [] {
      assert a + b == a;
    } else {
      assert (a + b)[..|a + b| - 1] == a + b[..|b| - 1];
      WhereJoined(a, b[..|b| - 1], marker);
    }
  }

  /** No line carries this marker. */
  predicate Free(ls: seq<string>, marker: string) {
    forall k :: 0 <= k < |ls| ==> Strip(ls[k]) != marker
  }

  lemma FreeJoined(a: seq<string>, b: seq<string>, marker: string)
    requires Free(a, marker) && Free(b, marker)
    ensures Free(a + b, marker)
  {
  }

  lemma {:induction false} WhereNone(ls: seq<string>, marker: string)
    requires Free(ls, marker)
    ensures Where(ls, marker) == []
  {
    hide Strip;
    if ls != [] {
      WhereNone(ls[..|ls| - 1], marker);
    }
  }

  lemma NoBlock(lines: seq<string>)
    requires Unmarked(lines)
    ensures BlockOf(lines) == Ok(None)
  {
    hide Strip;
    WhereNone(lines, BEGIN);
    WhereNone(lines, END);
  }

  /** A marker that one line carries is found there. */
  lemma WhereOnce(a: seq<string>, ln: string, b: seq<string>, marker: string)
    requires Strip(ln) == marker && Free(a, marker) && Free(b, marker)
    ensures Where(a + ([ln] + b), marker) == [|a|]
  {
    hide Strip, Free;
    WhereJoined(a, [ln] + b, marker);
    WhereJoined([ln], b, marker);
    WhereNone(a, marker);
    WhereNone(b, marker);
    assert [ln][..0] == [];
    assert Where([ln], marker) == [0];
  }

  lemma MarkedBlock(p: Parts)
    requires Marked(p)
    ensures BlockOf(Lines(p)) == Ok(Some(Span(First(p), Last(p))))
    ensures Lines(p)[First(p)] == p.begin
    ensures Lines(p)[First(p) + 1..Last(p)] == p.managed
  {
    hide Strip, Where, Lines, Unmarked;
    BeginFound(p);
    EndFound(p);
    AroundBlock(p);
  }

  /** A config around its begin marker, and around its end marker. */
  lemma AroundBlock(p: Parts)
    ensures Lines(p) == p.front + ([p.begin] + (p.managed + [p.end] + p.back))
    ensures Lines(p) == (p.front + [p.begin] + p.managed) + ([p.end] + p.back)
    ensures |p.front + [p.begin] + p.managed| == Last(p) && First(p) < Last(p) < |Lines(p)|
    ensures Lines(p)[First(p)] == p.begin && Lines(p)[First(p) + 1..Last(p)] == p.managed
  {
  }

  lemma BeginFound(p: Parts)
    requires Marked(p)
    ensures Where(Lines(p), BEGIN) == [First(p)]
  {
    MarkerStrips();
    AroundBlock(p);
    assert Free(p.front, BEGIN) && Free(p.managed, BEGIN) && Free(p.back, BEGIN) && Free([p.end], BEGIN);
    hide *;
    FreeJoined(p.managed, [p.end], BEGIN);
    FreeJoined(p.managed + [p.end], p.back, BEGIN);
    FirstIs(p);
    WhereOnce(p.front, p.begin, p.managed + [p.end] + p.back, BEGIN);
  }

  lemma FirstIs(p: Parts)
    ensures First(p) == |p.front|
  {
  }

  lemma EndFound(p: Parts)
    requires Marked(p)
    ensures Where(Lines(p), END) == [Last(p)]
  {
    MarkerStrips();
    AroundBlock(p);
    assert Free(p.front, END) && Free(p.managed, END) && Free(p.back, END) && Free([p.begin], END);
    hide *;
    FreeJoined(p.front, [p.begin], END);
    FreeJoined(p.front + [p.begin], p.managed, END);
    WhereOnce(p.front + [p.begin] + p.managed, p.end, p.back, END);
  }

  lemma {:induction false} WhereAll(ls: seq<string>, marker: string, k: nat)
    requires k < |ls| && Strip(ls[k]) == marker
    ensures k in Where(ls, marker)
  {
    hide Strip;
    if k < |ls| - 1 {
      WhereAll(ls[..|ls| - 1], marker, k);
    }
  }

  /** Every config whose markers are sound has such parts. */
  lemma PartsOf(lines: seq<string>, span: Span) returns (p: Parts)
    requires BlockOf(lines) == Ok(Some(span))
    ensures Lines(p) == lines && Marked(p) && First(p) == span.first && Last(p) == span.last
  {
    BlockSpec(lines, span);
    hide *;
    p := Parts(lines[..span.first], lines[span.first], lines[span.first + 1..span.last], lines[span.last],
               lines[span.last + 1..]);
    CutMarked(lines, span, p);
    CutPlaced(lines, span, p);
  }

  lemma CutPlaced(lines: seq<string>, span: Span, p: Parts)
    requires span.first < span.last < |lines|
    requires p == Parts(lines[..span.first], lines[span.first], lines[span.first + 1..span.last], lines[span.last],
                        lines[span.last + 1..])
    ensures First(p) == span.first && Last(p) == span.last && Lines(p) == lines
  {
  }

  lemma CutMarked(lines: seq<string>, span: Span, p: Parts)
    requires span.first < span.last < |lines|
    requires p == Parts(lines[..span.first], lines[span.first], lines[span.first + 1..span.last], lines[span.last],
                        lines[span.last + 1..])
    requires Strip(lines[span.first]) == BEGIN && Strip(lines[span.last]) == END
    requires forall k :: 0 <= k < |lines| && k != span.first ==> Strip(lines[k]) != BEGIN
    requires forall k :: 0 <= k < |lines| && k != span.last ==> Strip(lines[k]) != END
    ensures Marked(p)
  {
    hide Strip, BEGIN, END;
  }

  lemma BlockSpec(lines: seq<string>, span: Span)
    requires BlockOf(lines) == Ok(Some(span))
    ensures Strip(lines[span.first]) == BEGIN && Strip(lines[span.last]) == END
    ensures forall k :: 0 <= k < |lines| && k != span.first ==> Strip(lines[k]) != BEGIN
    ensures forall k :: 0 <= k < |lines| && k != span.last ==> Strip(lines[k]) != END
  {
    hide Strip, Where, BEGIN, END;
    forall k | 0 <= k < |lines|
      ensures Strip(lines[k]) == BEGIN ==> k in Where(lines, BEGIN)
      ensures Strip(lines[k]) == END ==> k in Where(lines, END)
    {
      if Strip(lines[k]) == BEGIN { WhereAll(lines, BEGIN, k); }
      if Strip(lines[k]) == END { WhereAll(lines, END, k); }
    }
  }

  lemma {:induction false} ModelListSpec(lines: seq<string>)
    requires ModelListAt(lines).Some?
    ensures var at := ModelListAt(lines).value;
            at < |lines| && IsModelList(lines[at]) && forall k :: 0 <= k < at ==> !IsModelList(lines[k])
  {
    hide IsModelList;
    if !IsModelList(lines[0]) {
      ModelListSpec(lines[1..]);
      assert forall k :: 0 < k < |lines| ==> lines[k] == lines[1..][k - 1];
    }
  }

  /** Where the lines after model_list's are. */
  lemma RestAt(p: Parts)
    requires Sited(p)
    ensures 0 < Base(p) <= |Lines(p)| && ModelListAt(Lines(p)) == Some(Base(p) - 1) && Lines(p)[Base(p)..] == Rest(p)
    ensures Upper(p) != [] ==> MiddleAt(p) == 0
    ensures Middle(p) != [] ==> LowerAt(p) == 0
    ensures Middle(p) == [] ==> Upper(p) == []
    ensures Base(p) + |Upper(p)| + |Middle(p)| == Last(p) + 1 + LowerAt(p)
    ensures Middle(p) != [] ==> Base(p) + |Upper(p)| == First(p) + MiddleAt(p)
    ensures Upper(p) != [] ==> Base(p) + |Upper(p)| == First(p)
  {
    hide *;
    ListAt(p);
    PartsLengths(p);
    RestCut(p.front, Inner(p), p.back, UpperAt(p), MiddleAt(p), LowerAt(p));
    LinesAre(p);
  }

  lemma LinesAre(p: Parts)
    ensures Lines(p) == p.front + Inner(p) + p.back
    ensures Rest(p) == p.front[UpperAt(p)..] + (Inner(p)[MiddleAt(p)..] + p.back[LowerAt(p)..])
    ensures Base(p) == UpperAt(p) + MiddleAt(p) + LowerAt(p)
  {
    hide Inner, UpperAt, MiddleAt, LowerAt;
  }

  lemma ListAt(p: Parts)
    requires Sited(p)
    ensures 0 < Base(p) && ModelListAt(Lines(p)) == Some(Base(p) - 1)
    ensures UpperAt(p) == |p.front| || (MiddleAt(p) == 0 && LowerAt(p) == 0)
    ensures MiddleAt(p) == |p.managed| + 2 || LowerAt(p) == 0
    ensures MiddleAt(p) == |p.managed| + 2 ==> UpperAt(p) == |p.front|
  {
    hide ModelListAt, Inner, Marked;
    SitedMarks(p);
    BlockNoList(p);
    InnerLength(p);
    ModelListJoined(p.front, Inner(p));
    ModelListJoined(p.front + Inner(p), p.back);
    AtWithin(p.front);
    AtWithin(p.managed);
    AtWithin(p.back);
  }

  lemma InnerLength(p: Parts)
    ensures |Inner(p)| == |p.managed| + 2
  {
  }

  lemma PartsLengths(p: Parts)
    ensures |Inner(p)| == |p.managed| + 2 && First(p) == |p.front| && Last(p) == |p.front| + 1 + |p.managed|
    ensures |Upper(p)| == |p.front| - UpperAt(p) && |Middle(p)| == |p.managed| + 2 - MiddleAt(p)
    ensures |Lower(p)| == |p.back| - LowerAt(p)
    ensures Base(p) == UpperAt(p) + MiddleAt(p) + LowerAt(p)
    ensures |Lines(p)| == |p.front| + |p.managed| + 2 + |p.back|
  {
    hide UpperAt, MiddleAt, LowerAt;
  }

  lemma RestCut(a: seq<string>, b: seq<string>, c: seq<string>, i: nat, j: nat, k: nat)
    requires i <= |a| && j <= |b| && k <= |c|
    requires (i == |a| || j == 0) && (j == |b| || k == 0) && (i == |a| || k == 0)
    ensures (a + b + c)[i + j + k..] == a[i..] + (b[j..] + c[k..])
  {
  }

  lemma BlockNoList(p: Parts)
    requires Marked(p)
    ensures ModelListAt(Inner(p)) ==
            if ModelListAt(p.managed).Some? then Some(ModelListAt(p.managed).value + 1) else None
  {
    hide *;
    MarkedEnds(p);
    MarkerNoList(p.begin);
    MarkerNoList(p.end);
    Surrounded(p.begin, p.managed, p.end);
    InnerIs(p);
  }

  lemma Surrounded(a: string, ls: seq<string>, b: string)
    requires !IsModelList(a) && !IsModelList(b)
    ensures ModelListAt([a] + ls + [b]) == if ModelListAt(ls).Some? then Some(ModelListAt(ls).value + 1) else None
  {
    hide *;
    LoneLine(a);
    LoneLine(b);
    ModelListJoined([a], ls);
    ModelListJoined([a] + ls, [b]);
  }

  lemma MarkedEnds(p: Parts)
    requires Marked(p)
    ensures Strip(p.begin) == BEGIN && Strip(p.end) == END
  {
    hide Strip, Unmarked;
  }

  lemma InnerIs(p: Parts)
    ensures Inner(p) == [p.begin] + p.managed + [p.end]
  {
  }

  lemma LoneLine(ln: string)
    requires !IsModelList(ln)
    ensures ModelListAt([ln]) == None
  {
    hide IsModelList;
    assert [ln][1..] == [];
  }

  // ------------------------------------------------- how far the list goes --

  /** Lines more after some add to the section unless it has ended. */
  lemma {:induction false} SectionAppend(a: seq<string>, b: seq<string>)
    ensures SectionLength(a + b) ==
            if Stays(a) && SectionLength(b) > 0 then |a| + SectionLength(b) else SectionLength(a)
  {
    hide LeavesSection, Blank;
    if a == [] {
      assert a + b == b;
    } else {
      assert (a + b)[1..] == a[1..] + b;
      SectionAppend(a[1..], b);
      assert Stays(a) <==> !LeavesSection(a[0]) && Stays(a[1..]) by { StaysStep(a); }
    }
  }

  lemma StaysStep(ls: seq<string>)
    requires ls != []
    ensures Stays(ls) <==> !LeavesSection(ls[0]) && Stays(ls[1..])
  {
    hide LeavesSection;
    assert forall k :: 0 < k < |ls| ==> ls[k] == ls[1..][k - 1];
  }

  lemma StaysBoth(a: seq<string>, b: seq<string>)
    ensures Stays(a + b) <==> Stays(a) && Stays(b)
  {
    hide LeavesSection;
    var both := a + b;
    assert forall k :: 0 <= k < |a| ==> both[k] == a[k];
    assert forall k :: 0 <= k < |b| ==> both[|a| + k] == b[k];
    assert forall k :: |a| <= k < |both| ==> both[k] == b[k - |a|];
  }

  lemma {:induction false} SectionSpec(ls: seq<string>)
    ensures Stays(ls[..SectionLength(ls)])
    ensures SectionLength(ls) > 0 ==> !Blank(ls[SectionLength(ls) - 1])
  {
    hide Blank, LeavesSection;
    if SectionLength(ls) > 0 {
      var n := SectionLength(ls[1..]);
      SectionSpec(ls[1..]);
      assert ls[..n + 1] == [ls[0]] + ls[1..][..n];
    }
  }

  lemma {:induction false} SectionEnds(ls: seq<string>)
    ensures Stays(ls) ==> AllBlank(ls[SectionLength(ls)..])
    ensures !Stays(ls) ==> SectionLength(ls) < |ls|
  {
    hide Blank, LeavesSection, Stays;
    if ls == [] {
      NothingLeaves();
    } else {
      StaysStep(ls);
      if !LeavesSection(ls[0]) {
        var n := SectionLength(ls[1..]);
        SectionEnds(ls[1..]);
        assert ls[n + 1..] == ls[1..][n..];
        assert ls[0..] == [ls[0]] + ls[1..] && ls[1..][0..] == ls[1..];
      }
    }
  }

  lemma NothingLeaves()
    ensures Stays([])
  {
  }

  lemma {:induction false} FullSection(ls: seq<string>)
    requires Stays(ls) && ls != [] && !Blank(ls[|ls| - 1])
    ensures SectionLength(ls) == |ls|
  {
    hide Blank, Stays, LeavesSection;
    StaysStep(ls);
    if |ls| > 1 {
      FullSection(ls[1..]);
    }
  }

  /** Where no line leaves the list, what rack sees of it are all its items. */
  lemma SeenAll(ls: seq<string>)
    requires Stays(ls)
    ensures Items(ls[..SectionLength(ls)]) == Items(ls) && OpenDash(ls[..SectionLength(ls)]) == OpenDash(ls)
  {
    hide *;
    SectionEnds(ls);
    var n := SectionLength(ls);
    assert ls == ls[..n] + ls[n..];
    ItemsThenBlanks(ls[..n], ls[n..]);
  }

  /** A marker line and what follows it list what follows it, and end what they follow. */
  lemma MarkerListed(mark: string, rest: seq<string>)
    requires Strip(mark) == BEGIN || Strip(mark) == END
    ensures Items([mark] + rest) == Moved(Items(rest), 1)
    ensures OpenDash([mark] + rest) == OpenDash(rest)
    ensures forall a :: Joins(a, [mark] + rest) <==> !HeldOpen(a, Lead(mark))
  {
    MarkerLine(mark);
    hide Strip, Lead, ItemName, Items, OpenDash, Joins, HeldOpen, Blank;
    ItemsStep([mark] + rest);
    OpenStep([mark] + rest);
    assert ([mark] + rest)[1..] == rest && ([mark] + rest)[0] == mark;
    forall a
      ensures Joins(a, [mark] + rest) <==> !HeldOpen(a, Lead(mark))
    {
      JoinsIs(a, [mark] + rest);
    }
  }

  /** The items of a part of the block lie between the markers. */
  lemma MiddleItem(p: Parts, n: nat, k: nat)
    requires Marked(p) && n <= |Middle(p)| && k < |Items(Middle(p)[..n])|
    ensures 1 <= MiddleAt(p) + Items(Middle(p)[..n])[k].at <= |p.managed|
  {
    hide *;
    MarkersStand(p);
    InnerEnds(p);
    MiddleIs(p);
    ItemStarts(Middle(p)[..n], k);
    CutSame(Middle(p), n);
    PartAt(Inner(p), MiddleAt(p), Items(Middle(p)[..n])[k].at);
  }

  lemma MiddleIs(p: Parts)
    ensures Middle(p) == Inner(p)[MiddleAt(p)..] && MiddleAt(p) <= |Inner(p)|
  {
  }

  lemma PartAt(ls: seq<string>, i: nat, k: nat)
    requires i <= |ls| && k < |ls[i..]|
    ensures ls[i..][k] == ls[i + k]
  {
  }

  lemma CutSame(ls: seq<string>, n: nat)
    requires n <= |ls|
    ensures |ls[..n]| == n && forall k :: 0 <= k < n ==> ls[..n][k] == ls[k]
  {
  }

  lemma MarkersStand(p: Parts)
    requires Marked(p)
    ensures ItemName(p.begin) == None && ItemName(p.end) == None
  {
    hide ItemName, Unmarked;
    MarkerLine(p.begin);
    MarkerLine(p.end);
  }

  lemma ItemStarts(ls: seq<string>, k: nat)
    requires k < |Items(ls)|
    ensures Items(ls)[k].at < |ls| && ItemName(ls[Items(ls)[k].at]) == Some(Items(ls)[k].name)
  {
    hide Items, ItemName, Closed, Lead;
    ItemsShaped(ls, k);
    var e := Items(ls)[k];
    assert e.text[0] == ls[e.at];
  }

  lemma InnerEnds(p: Parts)
    ensures Inner(p) != [] && Inner(p)[0] == p.begin && Inner(p)[|Inner(p)| - 1] == p.end
    ensures |Inner(p)| == |p.managed| + 2
    ensures Middle(p) != [] ==> Middle(p)[|Middle(p)| - 1] == p.end
    ensures MiddleAt(p) == 0 ==> Middle(p) == Inner(p)
  {
  }

  /** The lines of the section that rack reads. */
  lemma SectionLines(p: Parts)
    requires Sited(p)
    ensures Rest(p)[..SectionLength(Rest(p))] ==
            if SeenMiddle(p) == [] && SeenLower(p) == [] then SeenUpper(p)
            else Upper(p) + (SeenMiddle(p) + SeenLower(p))
    ensures SeenLower(p) != [] ==> SeenMiddle(p) == Middle(p)
    ensures SeenMiddle(p) != [] || SeenLower(p) != [] ==> Stays(Upper(p))
  {
    hide Strip, Unmarked, SectionLength, Stays, Inner, UpperAt, MiddleAt, LowerAt, Upper, Middle, Lower, ModelListAt;
    RestAt(p);
    InnerEnds(p);
    var u, m, l := Upper(p), Middle(p), Lower(p);
    SectionAppend(u, m + l);
    SectionAppend(m, l);
    SectionEnds(m);
    MarkerLine(p.end);
    if Stays(m) && m != [] {
      FullSection(m);
    }
    NothingLeaves();
    CutRest(u, m, l, SectionLength(Rest(p)));
    assert m[..|m|] == m && l[..0] == [] && m + [] == m;
  }

  lemma CutRest(a: seq<string>, b: seq<string>, c: seq<string>, n: nat)
    requires n <= |a| + |b| + |c|
    ensures var all := a + (b + c);
            && (n <= |a| ==> all[..n] == a[..n])
            && (|a| <= n <= |a| + |b| ==> all[..n] == a + b[..n - |a|])
            && (n >= |a| + |b| ==> all[..n] == a + (b + c[..n - |a| - |b|]))
  {
    var all := a + (b + c);
    if n <= |a| {
      assert all[..n] == a[..n];
    } else if n <= |a| + |b| {
      assert all[..n] == a + b[..n - |a|];
    }
    if n == |a| + |b| {
      assert b[..|b|] == b && c[..0] == [] && b + c[..0] == b;
    }
  }

  /** An upper item not held open to the block ends where it begins. */
  lemma UpperJoins(p: Parts)
    requires Sited(p) && (SeenMiddle(p) != [] || SeenLower(p) != [])
    ensures Joins(Upper(p), SeenMiddle(p) + SeenLower(p)) <==> !UpperHeld(p)
  {
    hide Unmarked, SectionLength, Inner, UpperAt, MiddleAt, LowerAt, Upper, Middle, Lower, ModelListAt, HeldOpen,
         Lead, Strip, ItemName, OpenDash, LeavesSection, Joins, Blank;
    RestAt(p);
    InnerEnds(p);
    OpenNothing();
    HeldIs(Upper(p), Lead(p.begin));
    JoinsIs(Upper(p), SeenMiddle(p) + SeenLower(p));
    if Upper(p) != [] {
      MarkerLine(p.begin);
      FirstSeen(Middle(p));
      assert (SeenMiddle(p) + SeenLower(p))[0] == p.begin;
    }
  }

  lemma FirstSeen(ls: seq<string>)
    requires ls != [] && !Blank(ls[0])
    ensures SectionLength(ls) > 0 <==> !LeavesSection(ls[0])
    ensures Stays(ls) ==> !LeavesSection(ls[0])
  {
  }

  /** What the block leaves open below it. */
  lemma MiddleOpen(p: Parts)
    requires Sited(p) && Middle(p) != []
    ensures OpenDash(Middle(p)) == if HeldOpen(p.managed, Lead(p.end)) then OpenDash(p.managed) else None
  {
    hide *;
    SitedMarks(p);
    var m := MiddleManaged(p);
    HeldIs(p.managed, Lead(p.end));
    MarkerLine(p.end);
    MarkerListed(p.end, []);
    OpenNothing();
    assert [p.end] + [] == [p.end];
    OpenJoined(m, [p.end]);
    if OpenDash(m).Some? {
      BodyOne(p.end, OpenDash(m).value);
    }
  }

  lemma BodyOne(ln: string, ind: nat)
    requires !Blank(ln)
    ensures Body([ln], ind) == if Lead(ln) <= ind then 0 else 1
  {
    hide Lead, Blank;
    assert [ln][1..] == [];
  }

  lemma SitedMarks(p: Parts)
    requires Sited(p)
    ensures Marked(p) && Strip(p.begin) == BEGIN && Strip(p.end) == END
  {
    hide Strip, Unmarked, ModelListAt, Lines;
  }

  lemma SitedIs(p: Parts)
    ensures Sited(p) <==> Marked(p) && ModelListAt(Lines(p)).Some?
  {
    hide Marked, ModelListAt, Lines;
  }

  /** The block after model_list, end marker aside, leaves open what all of it does. */
  lemma MiddleManaged(p: Parts) returns (m: seq<string>)
    requires Sited(p) && Middle(p) != []
    ensures OpenDash(m) == OpenDash(p.managed) && OpenDash(Middle(p)) == OpenDash(m + [p.end])
  {
    hide OpenDash, ModelListAt, Strip, Unmarked, Lead, HeldOpen, Joins, Items;
    AtWithin(p.managed);
    if MiddleAt(p) == 0 {
      m := p.managed;
      assert Middle(p) == [p.begin] + (p.managed + [p.end]);
      MarkerListed(p.begin, p.managed + [p.end]);
    } else {
      var j := ModelListAt(p.managed).value;
      m := p.managed[j + 1..];
      assert Middle(p) == m + [p.end];
      ModelListSpec(p.managed);
      ListCloses(p.managed, j);
    }
  }

  /** A model_list line ends every item. */
  lemma ListCloses(ls: seq<string>, j: nat)
    requires j < |ls| && IsModelList(ls[j])
    ensures OpenDash(ls) == OpenDash(ls[j + 1..])
  {
    hide OpenDash, Lead, ItemName, IsModelList, Body;
    ListLine(ls[j]);
    var a, b := ls[..j], ls[j..];
    assert ls == a + b && b[0] == ls[j] && b[1..] == ls[j + 1..];
    OpenJoined(a, b);
    OpenStep(b);
    if OpenDash(a).Some? {
      BodyStops(b, OpenDash(a).value);
    }
  }

  lemma BodyStops(ls: seq<string>, ind: nat)
    requires ls != [] && !Blank(ls[0]) && Lead(ls[0]) <= ind
    ensures Body(ls, ind) == 0
  {
  }

  /** The lines below that an item of the block takes in, when none above it does. */
  lemma LostIs(p: Parts)
    requires Sited(p) && !UpperHeld(p)
    ensures Lost(p) == Past(SeenLower(p), OpenDash(SeenMiddle(p)))
  {
    hide *;
    SectionLines(p);
    LostMeans(p);
    if SeenLower(p) == [] {
      PastNothing(OpenDash(Upper(p) + Middle(p)));
      PastNothing(OpenDash(SeenMiddle(p)));
    } else {
      ThroughBlock(p);
    }
  }

  lemma LostBy(p: Parts)
    requires Sited(p) && !UpperHeld(p) && SeenLower(p) != []
    ensures Lost(p) == if Middle(p) != [] && HeldOpen(p.managed, Lead(p.end))
                       then Body(SeenLower(p), OpenDash(p.managed).value) else 0
  {
    hide *;
    LostIs(p);
    SectionLines(p);
    OpenNothing();
    PastIs(SeenLower(p), OpenDash(SeenMiddle(p)));
    HeldIs(p.managed, Lead(p.end));
    if Middle(p) != [] {
      MiddleOpen(p);
    }
  }

  lemma PastIs(ls: seq<string>, dash: Option<nat>)
    ensures Past(ls, dash) == if dash.Some? then Body(ls, dash.value) else 0
  {
  }

  lemma LostMeans(p: Parts)
    ensures Lost(p) == Past(SeenLower(p), OpenDash(Upper(p) + Middle(p)))
    ensures Lost(p) <= |SeenLower(p)|
  {
    hide Past, SeenLower, OpenDash, Upper, Middle;
  }

  lemma PastNothing(dash: Option<nat>)
    ensures Past([], dash) == 0
  {
  }

  /** No item above is open below the block. */
  lemma ThroughBlock(p: Parts)
    requires Sited(p) && !UpperHeld(p) && SeenLower(p) != []
    ensures OpenDash(Upper(p) + Middle(p)) == OpenDash(Middle(p))
  {
    hide Unmarked, SectionLength, Inner, UpperAt, MiddleAt, LowerAt, Upper, Middle, Lower, ModelListAt, HeldOpen,
         Lead, Strip, OpenDash, LeavesSection, Blank, Stays, Body;
    RestAt(p);
    InnerEnds(p);
    OpenNothing();
    OpenJoined(Upper(p), Middle(p));
    HeldIs(Upper(p), Lead(p.begin));
    if Upper(p) == [] {
      assert [] + Middle(p) == Middle(p);
    } else if OpenDash(Upper(p)).Some? {
      MarkerLine(p.begin);
      FirstSeen(Middle(p));
      BodyStops(Middle(p), OpenDash(Upper(p)).value);
    }
  }

  /** The items rack finds in the section, when none above takes the block in: those above, some between the markers,
      and those below past what the last one between takes in. */
  lemma SeenItems(p: Parts) returns (between: seq<Entry>)
    requires Sited(p) && !UpperHeld(p)
    ensures Items(Rest(p)[..SectionLength(Rest(p))]) ==
            Items(SeenUpper(p)) + between + Moved(Items(SeenLower(p)[Lost(p)..]), |Upper(p)| + |Middle(p)| + Lost(p))
    ensures forall k :: 0 <= k < |between| ==> First(p) < Base(p) + between[k].at < Last(p)
  {
    hide *;
    SectionLines(p);
    if SeenMiddle(p) == [] && SeenLower(p) == [] {
      between := [];
      NoneLower(p, Items(SeenUpper(p)), |Upper(p)| + |Middle(p)| + Lost(p));
    } else {
      between := SeenPast(p);
    }
  }

  lemma NoneLower(p: Parts, es: seq<Entry>, d: nat)
    requires SeenLower(p) == []
    ensures es + [] + Moved(Items(SeenLower(p)[Lost(p)..]), d) == es
  {
    hide *;
    assert SeenLower(p)[Lost(p)..] == [];
    NoItems();
    MovedNone(d);
  }

  lemma SeenPast(p: Parts) returns (between: seq<Entry>)
    requires Sited(p) && !UpperHeld(p) && (SeenMiddle(p) != [] || SeenLower(p) != [])
    ensures Items(Upper(p) + (SeenMiddle(p) + SeenLower(p))) ==
            Items(SeenUpper(p)) + between + Moved(Items(SeenLower(p)[Lost(p)..]), |Upper(p)| + |Middle(p)| + Lost(p))
    ensures forall k :: 0 <= k < |between| ==> First(p) < Base(p) + between[k].at < Last(p)
  {
    hide *;
    SectionLines(p);
    var mid := BlockItems(p);
    between := Moved(mid, |Upper(p)|);
    BlockBetween(p, mid);
    UpperJoins(p);
    ItemsSpliced(Upper(p), SeenMiddle(p) + SeenLower(p));
    SeenUpperIs(p);
    MovedPast(Items(SeenUpper(p)), mid, Items(SeenLower(p)[Lost(p)..]), |Middle(p)| + Lost(p), |Upper(p)|);
  }

  lemma MovedPast(a: seq<Entry>, b: seq<Entry>, c: seq<Entry>, n: nat, d: nat)
    ensures a + Moved(b + Moved(c, n), d) == a + Moved(b, d) + Moved(c, d + n)
  {
    hide Moved;
    MovedAppend(b, Moved(c, n), d);
    MovedTwice(c, n, d);
  }

  lemma SeenUpperIs(p: Parts)
    ensures Stays(Upper(p)) ==> Items(SeenUpper(p)) == Items(Upper(p))
  {
    hide Items, Stays, SectionLength, Upper;
    if Stays(Upper(p)) {
      SeenAll(Upper(p));
    }
  }

  /** The items of the block and below it. */
  lemma BlockItems(p: Parts) returns (mid: seq<Entry>)
    requires Sited(p) && !UpperHeld(p) && (SeenMiddle(p) != [] || SeenLower(p) != [])
    ensures Items(SeenMiddle(p) + SeenLower(p)) ==
            mid + Moved(Items(SeenLower(p)[Lost(p)..]), |Middle(p)| + Lost(p))
    ensures |mid| == |Items(SeenMiddle(p))|
    ensures forall k :: 0 <= k < |mid| ==> mid[k].at == Items(SeenMiddle(p))[k].at
  {
    hide *;
    SectionLines(p);
    LostIs(p);
    mid := HeadsJoined(SeenMiddle(p), SeenLower(p));
    HeadsAt(mid, Items(SeenMiddle(p)));
    if SeenLower(p) == [] {
      LostMeans(p);
      NoMore(SeenLower(p), Lost(p), |SeenMiddle(p)| + Lost(p), |Middle(p)| + Lost(p));
    }
  }

  lemma HeadsAt(a: seq<Entry>, b: seq<Entry>)
    requires SameHeads(a, b)
    ensures |a| == |b| && forall k :: 0 <= k < |a| ==> a[k].at == b[k].at && a[k].name == b[k].name
  {
  }

  lemma NoMore(ls: seq<string>, k: nat, d: nat, n: nat)
    requires ls == [] && k <= |ls|
    ensures Items(ls[k..]) == [] && Moved(Items(ls[k..]), d) == Moved(Items(ls[k..]), n) == []
  {
    assert ls[k..] == [];
    NoItems();
  }

  lemma BlockBetween(p: Parts, mid: seq<Entry>)
    requires Sited(p) && |mid| == |Items(SeenMiddle(p))|
    requires forall k :: 0 <= k < |mid| ==> mid[k].at == Items(SeenMiddle(p))[k].at
    ensures forall k :: 0 <= k < |Moved(mid, |Upper(p)|)| ==>
              First(p) < Base(p) + Moved(mid, |Upper(p)|)[k].at < Last(p)
  {
    hide *;
    MovedEntries(mid, |Upper(p)|);
    forall k: nat | k < |mid|
      ensures First(p) < Base(p) + |Upper(p)| + mid[k].at < Last(p)
    {
      BlockHead(p, k);
    }
  }

  lemma BlockHead(p: Parts, k: nat)
    requires Sited(p) && k < |Items(SeenMiddle(p))|
    ensures First(p) < Base(p) + |Upper(p)| + Items(SeenMiddle(p))[k].at < Last(p)
  {
    hide *;
    SitedMarks(p);
    RestAt(p);
    PlacesAre(p);
    var n := SeenMiddleCut(p);
    MiddleItem(p, n, k);
    NoItems();
    if Middle(p) == [] {
      SliceOfNone(Middle(p), n);
      assert false;
    }
  }

  lemma SliceOfNone(ls: seq<string>, n: nat)
    requires ls == [] && n <= |ls|
    ensures ls[..n] == []
  {
  }

  lemma PlacesAre(p: Parts)
    ensures First(p) == |p.front| && Last(p) == First(p) + 1 + |p.managed|
  {
  }

  lemma SeenMiddleCut(p: Parts) returns (n: nat)
    ensures n <= |Middle(p)| && SeenMiddle(p) == Middle(p)[..n]
  {
    hide Stays, SectionLength, Middle, Upper;
    n := if Stays(Upper(p)) then SectionLength(Middle(p)) else 0;
    assert Middle(p)[..0] == [];
  }

  lemma MovedEntries(es: seq<Entry>, d: nat)
    ensures |Moved(es, d)| == |es| && forall k :: 0 <= k < |es| ==> Moved(es, d)[k] == es[k].(at := es[k].at + d)
  {
  }

  // -------------------------------------------------- inside and outside --

  lemma {:induction false} NotInsideAppend(a: seq<Entry>, b: seq<Entry>, span: Option<Span>)
    ensures NotInside(a + b, span) == NotInside(a, span) + NotInside(b, span)
  {
    if b == [] {
      assert a + b == a;
    } else {
      assert (a + b)[..|a + b| - 1] == a + b[..|b| - 1];
      NotInsideAppend(a, b[..|b| - 1], span);
    }
  }

  lemma {:induction false} NoneInside(es: seq<Entry>, span: Option<Span>)
    requires forall k :: 0 <= k < |es| ==> !Inside(es[k], span)
    ensures NotInside(es, span) == es
  {
    hide Inside;
    if es != [] {
      NoneInside(es[..|es| - 1], span);
    }
  }

  lemma {:induction false} AllInside(es: seq<Entry>, span: Option<Span>)
    requires forall k :: 0 <= k < |es| ==> Inside(es[k], span)
    ensures NotInside(es, span) == []
  {
    hide Inside;
    if es != [] {
      AllInside(es[..|es| - 1], span);
    }
  }

  lemma Placed(p: Parts)
    ensures First(p) < Last(p) < |Lines(p)|
  {
  }

  /** What rack takes for hand-kept items. */
  function HandKept(p: Parts): seq<Entry> {
    var found := Outside(Lines(p), Some(Span(First(p), Last(p))));
    if found.Ok? then found.value else []
  }

  /** The lines of the section, from the one after model_list's. */
  ghost predicate Reads(lines: seq<string>, at: nat, seen: seq<string>) {
    && at < |lines| && ModelListAt(lines) == Some(at)
    && lines[at + 1..][..SectionLength(lines[at + 1..])] == seen
  }

  lemma OutsideSited(p: Parts)
    requires Sited(p)
    ensures Outside(Lines(p), Some(Span(First(p), Last(p)))) == Ok(HandKept(p))
    ensures HandKept(p) ==
            NotInside(Moved(Items(Rest(p)[..SectionLength(Rest(p))]), Base(p)), Some(Span(First(p), Last(p))))
  {
    hide *;
    SitedAt(p);
    OutsideIs(Lines(p), Base(p) - 1, Rest(p)[..SectionLength(Rest(p))], Some(Span(First(p), Last(p))));
    HandKeptIs(p);
  }

  lemma SitedAt(p: Parts)
    requires Sited(p)
    ensures Base(p) > 0 && Reads(Lines(p), Base(p) - 1, Rest(p)[..SectionLength(Rest(p))])
  {
    RestAt(p);
    hide Lines, Rest, Sited, SectionLength, ModelListAt, Base;
  }

  lemma HandKeptIs(p: Parts)
    ensures var found := Outside(Lines(p), Some(Span(First(p), Last(p)))); found.Ok? ==> HandKept(p) == found.value
  {
    hide Outside, Lines, First, Last;
  }

  lemma OutsideIs(lines: seq<string>, at: nat, seen: seq<string>, span: Option<Span>)
    requires Reads(lines, at, seen)
    ensures ModelListAt(lines) == Some(at)
    ensures Outside(lines, span) == Ok(NotInside(Moved(Items(seen), at + 1), span))
  {
    hide Items, Moved, NotInside, ModelListAt, SectionLength;
    var n := SectionLength(lines[at + 1..]);
    assert lines[at + 1..at + 1 + n] == lines[at + 1..][..n];
  }

  /** outside, wherever model_list is and its list ends, when no item above takes the block in: the items above, and
      those below past what the last item of the block takes in. */
  lemma OutsideItems(p: Parts)
    requires Sited(p) && !UpperHeld(p)
    ensures HandKept(p) == Moved(Items(SeenUpper(p)), Base(p))
                           + Moved(Items(SeenLower(p)[Lost(p)..]), Last(p) + 1 + LowerAt(p) + Lost(p))
  {
    hide *;
    OutsideSited(p);
    var between := SeenItems(p);
    RestAt(p);
    SeenFit(p);
    Filtered(Items(SeenUpper(p)), between, Items(SeenLower(p)[Lost(p)..]), Lost(p), p);
  }

  lemma SeenFit(p: Parts)
    ensures forall k :: 0 <= k < |Items(SeenUpper(p))| ==> Items(SeenUpper(p))[k].at < |Upper(p)|
  {
    hide Stays, SectionLength, Items, Upper;
  }

  lemma Filtered(above: seq<Entry>, between: seq<Entry>, below: seq<Entry>, lost: nat, p: Parts)
    requires forall k :: 0 <= k < |above| ==> above[k].at < |Upper(p)|
    requires Upper(p) != [] ==> Base(p) + |Upper(p)| == First(p)
    requires Base(p) + |Upper(p)| + |Middle(p)| == Last(p) + 1 + LowerAt(p)
    requires forall k :: 0 <= k < |between| ==> First(p) < Base(p) + between[k].at < Last(p)
    ensures NotInside(Moved(above + between + Moved(below, |Upper(p)| + |Middle(p)| + lost), Base(p)),
                      Some(Span(First(p), Last(p))))
         == Moved(above, Base(p)) + Moved(below, Last(p) + 1 + LowerAt(p) + lost)
  {
    hide *;
    var span, d, far := Some(Span(First(p), Last(p))), Base(p), Last(p) + 1 + LowerAt(p) + lost;
    MovedAppend(above + between, Moved(below, |Upper(p)| + |Middle(p)| + lost), d);
    MovedAppend(above, between, d);
    MovedTwice(below, |Upper(p)| + |Middle(p)| + lost, d);
    NotInsideAppend(Moved(above, d) + Moved(between, d), Moved(below, far), span);
    NotInsideAppend(Moved(above, d), Moved(between, d), span);
    BeforeOutside(above, p);
    NoneInside(Moved(above, d), span);
    BetweenInside(between, p);
    AllInside(Moved(between, d), span);
    BeyondOutside(below, far, p);
    NoneInside(Moved(below, far), span);
    assert Moved(above, d) + [] == Moved(above, d);
  }

  lemma BetweenInside(es: seq<Entry>, p: Parts)
    requires forall k :: 0 <= k < |es| ==> First(p) < Base(p) + es[k].at < Last(p)
    ensures forall k :: 0 <= k < |Moved(es, Base(p))| ==> Inside(Moved(es, Base(p))[k], Some(Span(First(p), Last(p))))
  {
    hide Base, First, Last;
  }

  lemma BeyondOutside(es: seq<Entry>, d: nat, p: Parts)
    requires d > Last(p)
    ensures forall k :: 0 <= k < |Moved(es, d)| ==> !Inside(Moved(es, d)[k], Some(Span(First(p), Last(p))))
  {
    hide First, Last;
  }

  /** The items above and below the block, as far as the list goes, in the numbering of the file. */
  function Found(p: Parts): seq<Entry> {
    Moved(Items(SeenUpper(p)), Base(p)) + Moved(Items(SeenLower(p)), Last(p) + 1 + LowerAt(p))
  }

  function HandListing(p: Parts): seq<Route> { Listed(SeenUpper(p)) + Listed(SeenLower(p)) }

  /** outside gives exactly those, wherever model_list is, its list ends and its dashes stand, if and only if no item
      above takes the block in and the last one in it takes in none below. */
  lemma OutsideFound(p: Parts)
    requires Sited(p)
    ensures Outside(Lines(p), Some(Span(First(p), Last(p)))) == Ok(HandKept(p))
    ensures HandKept(p) == Found(p) <==> Whole(p)
  {
    hide *;
    OutsideSited(p);
    WholeIs(p);
    FoundIs(p);
    if UpperHeld(p) {
      UpperGrows(p);
    } else {
      OutsideItems(p);
      var l, n, d := SeenLower(p), Lost(p), Last(p) + 1 + LowerAt(p);
      LostCut(p);
      MovedTwice(Items(l[n..]), n, d);
      MovedAppend(Items(l[..n]), Moved(Items(l[n..]), n), d);
      TailMissing(Moved(Items(SeenUpper(p)), Base(p)), Moved(Items(l[..n]), d), Moved(Items(l[n..]), d + n));
      MovedLength(Items(l[..n]), d);
      if Items(l[..n]) == [] {
        MovedNone(d);
      }
    }
  }

  lemma WholeIs(p: Parts)
    ensures Whole(p) <==> Sited(p) && !UpperHeld(p) && Items(SeenLower(p)[..Lost(p)]) == []
  {
    hide Sited, UpperHeld, Items, SeenLower, Lost;
  }

  lemma TailMissing(a: seq<Entry>, b: seq<Entry>, c: seq<Entry>)
    ensures a + c == a + (b + c) <==> b == []
  {
    if b != [] {
      assert |a + c| < |a + (b + c)|;
    } else {
      assert b + c == c;
    }
  }

  /** What is taken in is the start of the lines below, and the rest lists its own items. */
  lemma LostCut(p: Parts)
    ensures var l, n := SeenLower(p), Lost(p); Items(l) == Items(l[..n]) + Moved(Items(l[n..]), n)
  {
    hide Items, SeenLower, Upper, Middle, OpenDash, Lead, Body, Lost;
    var l, n := SeenLower(p), Lost(p);
    LostMeans(p);
    if n == 0 {
      assert l[..0] == [] && l[0..] == l;
      NoItems();
      MovedSame(Items(l), 0);
      assert [] + Items(l) == Items(l);
    } else {
      LostMeans(p);
      ItemsAfterBody(l, OpenDash(Upper(p) + Middle(p)).value);
    }
  }

  lemma NoneBefore(ls: seq<string>, n: nat)
    requires n <= |ls| && Items(ls) == []
    ensures Items(ls[..n]) == []
  {
    hide Items;
    assert ls[..n] + ls[n..] == ls;
    if Items(ls[..n]) != [] {
      HeadsKept(ls[..n], ls[n..], 0);
      assert false;
    }
  }

  lemma FoundIs(p: Parts)
    ensures Found(p) == Moved(Items(SeenUpper(p)), Base(p)) + Moved(Items(SeenLower(p)), Last(p) + 1 + LowerAt(p))
  {
    hide Items, Moved, SeenUpper, SeenLower;
  }

  /** An item above that takes the block in is found with more lines than are its own. */
  lemma UpperGrows(p: Parts)
    requires Sited(p) && UpperHeld(p)
    ensures HandKept(p) != Found(p)
  {
    hide *;
    HeldSeen(p);
    SectionLines(p);
    RestAt(p);
    OutsideSited(p);
    UpperJoins(p);
    SeenUpperIs(p);
    FoundIs(p);
    var u, more := Upper(p), SeenMiddle(p) + SeenLower(p);
    JoinsIs(u, more);
    var e := ItemsGrown(u, more);
    GrownIs(u, more, e);
    UpperFits(p);
    var n, m := |Items(u)| - 1, Body(more, OpenDash(u).value);
    var tail := Moved(Items(more[m..]), |u| + m);
    GrownFirst(Items(u)[..n], e, tail, Items(u)[n], p);
    assert Items(u)[..n] + [Items(u)[n]] == Items(u);
    MovedEntries(Items(u), Base(p));
    DifferAt(Moved(Items(u), Base(p)), Moved(Items(SeenLower(p)), Last(p) + 1 + LowerAt(p)), HandKept(p), n);
  }

  lemma UpperFits(p: Parts)
    ensures Items(Upper(p)) != [] ==>
              var n := |Items(Upper(p))| - 1;
              Within(Items(Upper(p))[..n], |Upper(p)|) && Items(Upper(p))[n].at < |Upper(p)|
  {
    hide Items, Upper;
  }

  lemma DifferAt(a: seq<Entry>, b: seq<Entry>, c: seq<Entry>, n: nat)
    requires n < |a| && (n < |c| ==> |c[n].text| > |a[n].text|)
    ensures c != a + b
  {
    assert (a + b)[n] == a[n];
  }

  lemma HeldSeen(p: Parts)
    requires Sited(p) && UpperHeld(p)
    ensures SeenMiddle(p) != [] && Stays(Upper(p)) && Upper(p) != []
  {
    hide Unmarked, SectionLength, Inner, UpperAt, MiddleAt, LowerAt, Upper, Middle, Lower, ModelListAt, HeldOpen,
         Lead, Strip, ItemName, OpenDash, LeavesSection, Blank, Stays;
    RestAt(p);
    InnerEnds(p);
    OpenNothing();
    HeldIs(Upper(p), Lead(p.begin));
    MarkerLine(p.begin);
    FirstSeen(Inner(p));
  }

  /** The first entries of a section begin above the block, and are kept. */
  lemma GrownFirst(init: seq<Entry>, e: Entry, tail: seq<Entry>, was: Entry, p: Parts)
    requires Within(init, |Upper(p)|) && e.at < |Upper(p)| && Base(p) + |Upper(p)| == First(p)
    requires |e.text| > |was.text|
    ensures var kept := NotInside(Moved(init + [e] + tail, Base(p)), Some(Span(First(p), Last(p))));
            |init| < |kept| && |kept[|init|].text| > |was.text|
  {
    hide *;
    var span, d := Some(Span(First(p), Last(p))), Base(p);
    MovedAppend(init + [e], tail, d);
    NotInsideAppend(Moved(init + [e], d), Moved(tail, d), span);
    AllBefore(init, e, |Upper(p)|);
    BeforeOutside(init + [e], p);
    NoneInside(Moved(init + [e], d), span);
    MovedEntries(init + [e], d);
  }

  lemma AllBefore(init: seq<Entry>, e: Entry, n: nat)
    requires Within(init, n) && e.at < n
    ensures forall k :: 0 <= k < |init + [e]| ==> (init + [e])[k].at < n
  {
  }

  lemma BeforeOutside(es: seq<Entry>, p: Parts)
    requires Upper(p) != [] ==> Base(p) + |Upper(p)| == First(p)
    requires forall k :: 0 <= k < |es| ==> es[k].at < |Upper(p)|
    ensures forall k :: 0 <= k < |Moved(es, Base(p))| ==> !Inside(Moved(es, Base(p))[k], Some(Span(First(p), Last(p))))
  {
    hide Upper, Base, First, Last;
  }

  /** The items outside the block that rack sees: above, and below past what an item takes in that began before. */
  function HandSeen(p: Parts): seq<Route> { Listed(SeenUpper(p)) + Listed(SeenLower(p)[Lost(p)..]) }

  function RouteNames(rs: seq<Route>): seq<string> {
    seq(|rs|, k requires 0 <= k < |rs| => rs[k].name)
  }

  /** Wherever the markers stand and whatever takes them in, the names rack takes for hand-kept are those, in order. */
  lemma HandNames(p: Parts)
    requires Sited(p)
    ensures Names(HandKept(p)) == RouteNames(HandSeen(p))
  {
    hide *;
    OutsideSited(p);
    SectionLines(p);
    RestAt(p);
    SeenFit(p);
    var above, between, below := Items(SeenUpper(p)), [], Items(SeenLower(p)[Lost(p)..]);
    if SeenMiddle(p) == [] && SeenLower(p) == [] {
      LostMeans(p);
      NoMore(SeenLower(p), Lost(p), |Upper(p)| + |Middle(p)| + Lost(p), 0);
      assert above + [] + [] == above;
      SameHeadsAsIs(above);
    } else {
      above, between := SeenHeads(p);
    }
    HeadsAt(above, Items(SeenUpper(p)));
    Filtered(above, between, below, Lost(p), p);
    NamesOf(p, above, below);
  }

  lemma SameHeadsAsIs(es: seq<Entry>)
    ensures SameHeads(es, es)
  {
  }

  lemma NamesOf(p: Parts, above: seq<Entry>, below: seq<Entry>)
    requires SameHeads(above, Items(SeenUpper(p))) && below == Items(SeenLower(p)[Lost(p)..])
    ensures forall d: nat, e: nat :: Names(Moved(above, d) + Moved(below, e)) == RouteNames(HandSeen(p))
  {
    hide Items, SeenUpper, SeenLower, Lost;
  }

  /** The items of the section: under the names of those above, some between the markers, and those below. */
  lemma SeenHeads(p: Parts) returns (above: seq<Entry>, between: seq<Entry>)
    requires Sited(p) && (SeenMiddle(p) != [] || SeenLower(p) != [])
    ensures Items(Rest(p)[..SectionLength(Rest(p))]) ==
            above + between + Moved(Items(SeenLower(p)[Lost(p)..]), |Upper(p)| + |Middle(p)| + Lost(p))
    ensures SameHeads(above, Items(SeenUpper(p)))
    ensures forall k :: 0 <= k < |between| ==> First(p) < Base(p) + between[k].at < Last(p)
  {
    hide *;
    SectionLines(p);
    SeenUpperIs(p);
    LostMeans(p);
    var u, m, l := Upper(p), SeenMiddle(p), SeenLower(p);
    assert u + m + l == u + (m + l);
    var heads := HeadsJoined(u + m, l);
    HeadsAt(heads, Items(u + m));
    if l == [] {
      NoMore(l, Lost(p), |u| + |Middle(p)| + Lost(p), 0);
      PastNothing(OpenDash(u + m));
      NoMore(l, 0, |u + m|, 0);
    }
    UpperHeads(p, heads);
    above, between := heads[..|Items(u)|], heads[|Items(u)|..];
    assert above + between == heads;
  }

  /** The items of the section up to the end of the block: those above, and the rest between the markers. */
  lemma UpperHeads(p: Parts, heads: seq<Entry>)
    requires Sited(p) && (SeenMiddle(p) != [] || SeenLower(p) != [])
    requires SameHeads(heads, Items(Upper(p) + SeenMiddle(p)))
    ensures |Items(Upper(p))| <= |heads| && SameHeads(heads[..|Items(Upper(p))|], Items(Upper(p)))
    ensures forall k :: |Items(Upper(p))| <= k < |heads| ==> First(p) < Base(p) + heads[k].at < Last(p)
  {
    hide Items, Sited, SeenMiddle, SeenLower, Upper, First, Last, Base;
    var u, m := Upper(p), SeenMiddle(p);
    if Items(u) != [] {
      HeadsKept(u, m, |Items(u)| - 1);
    }
    forall k: nat | k < |Items(u)|
      ensures k < |heads| && heads[k].name == Items(u)[k].name && heads[k].at == Items(u)[k].at
    {
      HeadsKept(u, m, k);
    }
    forall k: nat | |Items(u)| <= k < |heads|
      ensures First(p) < Base(p) + heads[k].at < Last(p)
    {
      var j := HeadsFrom(u, m, k);
      BlockHead(p, j);
    }
  }

  lemma HandIs(p: Parts)
    ensures HandListing(p) == Listed(SeenUpper(p)) + Listed(SeenLower(p))
  {
    hide Listed, SeenUpper, SeenLower;
  }

  lemma {:induction false} NotInsideFrom(es: seq<Entry>, span: Option<Span>, k: nat)
    requires k < |NotInside(es, span)|
    ensures NotInside(es, span)[k] in es && !Inside(NotInside(es, span)[k], span)
  {
    if es != [] && k < |NotInside(es[..|es| - 1], span)| {
      NotInsideFrom(es[..|es| - 1], span, k);
    }
  }

  lemma ManagedFound(p: Parts)
    requires Marked(p)
    ensures First(p) < Last(p) < |Lines(p)|
    ensures Managed(Lines(p), Span(First(p), Last(p))) == Moved(Items(p.managed), First(p) + 1)
  {
    hide *;
    MarkedBlock(p);
    Placed(p);
    ManagedIs(Lines(p), Span(First(p), Last(p)));
  }

  lemma ManagedIs(lines: seq<string>, span: Span)
    requires span.first < span.last < |lines|
    ensures Managed(lines, span) == Moved(Items(lines[span.first + 1..span.last]), span.first + 1)
  {
    hide Items, Moved;
  }

  /** Where a name first comes in a listing; its length when it does not. */
  function IndexOf(rs: seq<Route>, name: string): (k: nat)
    ensures k <= |rs|
    ensures k < |rs| ==> rs[k].name == name
    ensures forall j :: 0 <= j < k ==> rs[j].name != name
  {
    if rs == [] || rs[0].name == name then 0 else 1 + IndexOf(rs[1..], name)
  }

  predicate Has(rs: seq<Route>, name: string) { IndexOf(rs, name) < |rs| }

  lemma {:induction false} NamedIs(es: seq<Entry>, name: string)
    ensures var k := IndexOf(Listing(es), name);
            Named(es, name) == if k < |es| then Some(es[k]) else None
  {
    if es != [] {
      assert Listing(es)[1..] == Listing(es[1..]);
      NamedIs(es[1..], name);
    }
  }

  lemma {:induction false} IndexAppend(a: seq<Route>, b: seq<Route>, name: string)
    ensures IndexOf(a + b, name) == if Has(a, name) then IndexOf(a, name) else |a| + IndexOf(b, name)
  {
    if a == [] {
      assert a + b == b;
    } else {
      assert (a + b)[1..] == a[1..] + b;
      IndexAppend(a[1..], b, name);
    }
  }

  lemma HasSecond(a: seq<Route>, b: seq<Route>, name: string)
    ensures Has(a + b, name) <==> Has(a, name) || Has(b, name)
  {
    hide IndexOf;
    IndexAppend(a, b, name);
  }

  lemma FoundListing(p: Parts)
    ensures Listing(Found(p)) == HandListing(p)
  {
    hide Items, Moved, SeenUpper, SeenLower;
    ListingAppend(Moved(Items(SeenUpper(p)), Base(p)), Moved(Items(SeenLower(p)), Last(p) + 1 + LowerAt(p)));
    ListingMoved(Items(SeenUpper(p)), Base(p));
    ListingMoved(Items(SeenLower(p)), Last(p) + 1 + LowerAt(p));
  }

  // ---------------------------------------------------------- the new route --

  /** A name the item pattern reads back whole. */
  predicate PlainName(name: string) {
    name != "" && forall k :: 0 <= k < |name| ==> !IsQuote(name[k]) && name[k] != '#' && !IsSpace(name[k])
  }

  lemma {:induction false} NameRunAll(name: string)
    requires forall k :: 0 <= k < |name| ==> !IsQuote(name[k]) && name[k] != '#' && !IsSpace(name[k])
    ensures NameRun(name) == |name|
  {
    if name != "" {
      NameRunAll(name[1..]);
    }
  }

  lemma NameReadBack(name: string)
    requires PlainName(name)
    ensures NameAfterDash(" " + KEY + " " + name) == Some(name)
  {
    var s := " " + KEY + " " + name;
    LeadUnique(s, 1);
    var t := KEY + " " + name;
    assert DropSpace(s) == t;
    assert t[|KEY|..] == " " + name;
    LeadUnique(" " + name, 1);
    assert (" " + name)[1..] == name;
    assert DropSpace(t[|KEY|..]) == name;
    assert DropQuote(name) == name;
    NameRunAll(name);
    assert name[|name|..] == "" && name[..|name|] == name;
    assert KEY <= t;
  }

  predicate AllSpace(ind: string) {
    forall k :: 0 <= k < |ind| ==> IsSpace(ind[k])
  }

  lemma RouteHead(ind: string, name: string)
    requires AllSpace(ind) && PlainName(name)
    ensures ItemName(ind + "- model_name: " + name) == Some(name)
    ensures Lead(ind + "- model_name: " + name) == |ind|
  {
    hide *;
    NameReadBack(name);
    DashFound(ind, " " + KEY + " " + name);
    HeadText();
    Regroup(ind, "-", " " + KEY + " ", name);
  }

  lemma HeadText()
    ensures "-" + (" " + KEY + " ") == "- model_name: "
  {
  }

  lemma Regroup(ind: string, a: string, b: string, rest: string)
    ensures ind + (a + b) + rest == ind + (a + (b + rest))
  {
  }

  lemma DashFound(ind: string, rest: string)
    requires AllSpace(ind)
    ensures ItemName(ind + ("-" + rest)) == NameAfterDash(rest) && Lead(ind + ("-" + rest)) == |ind|
  {
    hide NameAfterDash, Lead;
    var s := "-" + rest;
    LeadUnique(ind + s, |ind|);
    assert DropSpace(ind + s) == s && s[0] == '-' && s[1..] == rest;
  }

  /** A line of ours that is indented and starts with a letter is visible, no marker, and deep enough. */
  lemma RouteLine(ind: string, more: string, text: string)
    requires AllSpace(ind) && AllSpace(more) && text != "" && !IsSpace(text[0]) && text[0] != '#'
    ensures var ln := ind + more + text;
            Lead(ln) == |ind| + |more| && !Blank(ln) && Strip(ln) != BEGIN && Strip(ln) != END
  {
    var ln := ind + more + text;
    LeadUnique(ln, |ind| + |more|);
    MarkerStrips();
    StripStarts(ln);
  }

  /** A line of a route: visible, so deep, and no marker. */
  predicate Laid(ln: string, deep: nat) {
    Lead(ln) == deep && !Blank(ln) && Strip(ln) != BEGIN && Strip(ln) != END
  }

  /** An indentation that keeps a line in the list. */
  predicate Indents(ind: string) { ind != "" && (ind[0] == ' ' || ind[0] == '\t') }

  lemma LaidOut(ind: string, more: string, text: string, whole: string, value: string)
    requires AllSpace(ind) && AllSpace(more)
    requires whole == more + text && text != "" && !IsSpace(text[0]) && text[0] != '#'
    ensures Laid(ind + whole + value, |ind| + |more|)
  {
    hide Strip, Lead, Blank, IsSpace, AllSpace;
    assert ind + whole + value == ind + more + (text + value);
    RouteLine(ind, more, text + value);
  }

  lemma EntryLaid(t: seq<string>, name: string, deep: nat)
    requires |t| == 5 && ItemName(t[0]) == Some(name) && Laid(t[0], deep)
    requires Laid(t[1], deep + 2) && Laid(t[2], deep + 4) && Laid(t[3], deep + 4) && Laid(t[4], deep + 4)
    ensures IsEntry(t, name) && Unmarked(t)
  {
    hide Strip, Lead, Blank, ItemName;
  }

  lemma RenderEntry(ind: string, name: string, served: string, apiBase: string, apiKey: string)
    requires AllSpace(ind) && PlainName(name)
    ensures var t := Render(ind, name, served, apiBase, apiKey);
            IsEntry(t, name) && Lead(t[0]) == |ind| && Unmarked(t) && (Indents(ind) ==> Stays(t))
  {
    RouteHead(ind, name);
    RenderLaid(ind, name, served, apiBase, apiKey);
    RenderStays(ind, name, served, apiBase, apiKey);
    hide *;
    EntryLaid(Render(ind, name, served, apiBase, apiKey), name, |ind|);
  }

  lemma RenderStays(ind: string, name: string, served: string, apiBase: string, apiKey: string)
    ensures Indents(ind) ==> Stays(Render(ind, name, served, apiBase, apiKey))
  {
  }

  /** Whatever the name, a route holds no marker and no model_list line. */
  lemma RenderMarks(ind: string, name: string, served: string, apiBase: string, apiKey: string)
    requires AllSpace(ind)
    ensures var t := Render(ind, name, served, apiBase, apiKey); t != [] && Unmarked(t) && ModelListAt(t) == None
  {
    RenderLaid(ind, name, served, apiBase, apiKey);
    RenderNoList(ind, name, served, apiBase, apiKey);
    hide *;
    var t := Render(ind, name, served, apiBase, apiKey);
    LaidUnmarked(t, |ind|);
    NoModelLists(t);
  }

  lemma LaidUnmarked(t: seq<string>, deep: nat)
    requires |t| == 5 && Laid(t[0], deep)
    requires Laid(t[1], deep + 2) && Laid(t[2], deep + 4) && Laid(t[3], deep + 4) && Laid(t[4], deep + 4)
    ensures t != [] && Unmarked(t)
  {
    hide Strip, Lead, Blank;
  }

  lemma RenderNoList(ind: string, name: string, served: string, apiBase: string, apiKey: string)
    requires AllSpace(ind)
    ensures var t := Render(ind, name, served, apiBase, apiKey);
            forall k :: 0 <= k < |t| ==> !IsModelList(t[k])
  {
    hide *;
    var t := Render(ind, name, served, apiBase, apiKey);
    RenderIs(ind, name, served, apiBase, apiKey);
    SpacedNoList(ind, "- model_name: " + name);
    SpacedNoList(ind, "  litellm_params:");
    SpacedNoList(ind, "    model: openai/" + served);
    SpacedNoList(ind, "    api_base: " + apiBase);
    SpacedNoList(ind, "    api_key: " + apiKey);
    FiveLines(t);
  }

  lemma RenderIs(ind: string, name: string, served: string, apiBase: string, apiKey: string)
    ensures var t := Render(ind, name, served, apiBase, apiKey);
            && |t| == 5 && t[0] == ind + ("- model_name: " + name) && t[1] == ind + "  litellm_params:"
            && t[2] == ind + ("    model: openai/" + served) && t[3] == ind + ("    api_base: " + apiBase)
            && t[4] == ind + ("    api_key: " + apiKey)
  {
    Associated(ind, "- model_name: ", name);
    Associated(ind, "    model: openai/", served);
    Associated(ind, "    api_base: ", apiBase);
    Associated(ind, "    api_key: ", apiKey);
  }

  lemma Associated(a: string, b: string, c: string)
    ensures a + b + c == a + (b + c)
  {
  }

  lemma FiveLines(t: seq<string>)
    requires |t| == 5 && !IsModelList(t[0]) && !IsModelList(t[1]) && !IsModelList(t[2]) && !IsModelList(t[3])
    requires !IsModelList(t[4])
    ensures forall k :: 0 <= k < |t| ==> !IsModelList(t[k])
  {
    hide IsModelList;
  }

  lemma SpacedNoList(ind: string, text: string)
    requires AllSpace(ind) && text != "" && text[0] != 'm'
    ensures !IsModelList(ind + text)
  {
    hide DropSpace;
    var ln := ind + text;
    assert ln[0] == if ind == "" then text[0] else ind[0];
    assert SECTION[0] == 'm' && !IsSpace('m');
  }

  lemma LineTexts()
    ensures "" + "- model_name: " == "- model_name: " && "  " + "litellm_params:" == "  litellm_params:"
    ensures "    " + "model: openai/" == "    model: openai/"
    ensures "    " + "api_base: " == "    api_base: " && "    " + "api_key: " == "    api_key: "
    ensures AllSpace("") && AllSpace("  ") && AllSpace("    ")
    ensures !IsSpace('-') && !IsSpace('l') && !IsSpace('m') && !IsSpace('a')
  {
  }

  lemma RenderLaid(ind: string, name: string, served: string, apiBase: string, apiKey: string)
    requires AllSpace(ind)
    ensures var t := Render(ind, name, served, apiBase, apiKey);
            && |t| == 5 && t[0] == ind + "- model_name: " + name && Laid(t[0], |ind|)
            && Laid(t[1], |ind| + 2) && Laid(t[2], |ind| + 4) && Laid(t[3], |ind| + 4) && Laid(t[4], |ind| + 4)
  {
    hide Laid, PlainName, IsSpace;
    LineTexts();
    LaidOut(ind, "", "- model_name: ", "- model_name: ", name);
    LaidOut(ind, "  ", "litellm_params:", "  litellm_params:", "");
    assert ind + "  litellm_params:" + "" == ind + "  litellm_params:";
    LaidOut(ind, "    ", "model: openai/", "    model: openai/", served);
    LaidOut(ind, "    ", "api_base: ", "    api_base: ", apiBase);
    LaidOut(ind, "    ", "api_key: ", "    api_key: ", apiKey);
  }
}
