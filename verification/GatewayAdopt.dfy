/** What adopt does: it moves one entry, as written, into the block, and loses no line of any config. */
module GatewayAdopt {
  import opened Prelude
  import opened Text
  import opened Gateway
  import opened GatewayItems
  import opened GatewayConfig
  import opened GatewayEdits

  // ---------------------------------------------------- no line is lost or made --

  /** What outside finds stands in the lines where it says, after the list's line: an entry outside the block. */
  lemma OutsideText(ls: seq<string>, span: Option<Span>, k: nat)
    requires Outside(ls, span).Ok? && k < |Outside(ls, span).value|
    ensures var e := Outside(ls, span).value[k];
            && e.at + |e.text| <= |ls| && e.text == ls[e.at..e.at + |e.text|]
            && IsEntry(e.text, e.name) && e.text != [] && !Inside(e, span)
            && ModelListAt(ls).Some? && ModelListAt(ls).value < e.at
  {
    hide Items, Moved, ModelListAt, SectionLength, NotInside, IsEntry, Closed, Within, Inside, Lead;
    AtWithin(ls);
    var start := ModelListAt(ls).value + 1;
    var seen := ls[start..start + SectionLength(ls[start..])];
    NotInsideFrom(Moved(Items(seen), start), span, k);
    var e := Outside(ls, span).value[k];
    MovedLength(Items(seen), start);
    var i :| 0 <= i < |Items(seen)| && Moved(Items(seen), start)[i] == e;
    MovedAt(Items(seen), start, i);
    ItemsShaped(seen, i);
    EntryStarts(e.text, e.name);
    hide *;
    SliceWithin(ls, start, |seen|, e.at - start, |e.text|);
  }

  lemma SliceWithin(ls: seq<string>, start: nat, n: nat, i: nat, len: nat)
    requires start + n <= |ls| && i + len <= n
    ensures ls[start..start + n][i..i + len] == ls[start + i..start + i + len]
  {
    var part := ls[start..start + n];
    assert forall k :: i <= k < i + len ==> part[k] == ls[start + k];
    assert part[i..i + len] == ls[start + i..start + i + len];
  }

  lemma TakenCounted(ls: seq<string>, i: nat, j: nat)
    requires i <= j <= |ls|
    ensures multiset(Replaced(ls, i, j, [])) + multiset(ls[i..j]) == multiset(ls)
  {
    assert ls == ls[..i] + ls[i..j] + ls[j..];
  }

  lemma AddedCounted(ls: seq<string>, i: nat, t: seq<string>)
    requires i <= |ls|
    ensures multiset(Replaced(ls, i, i, t)) == multiset(ls) + multiset(t)
  {
    assert ls == ls[..i] + ls[i..];
  }

  /** Whatever the config, adopt permutes the lines it has once the block is there. */
  lemma AdoptPermutes(lines: seq<string>, name: string)
    requires Adopt(lines, name).Ok?
    ensures EnsureBlock(lines).Ok?
    ensures multiset(Adopt(lines, name).value.lines) == multiset(EnsureBlock(lines).value.lines)
  {
    hide EnsureBlock, Outside, BlockOf, Named, Replaced, Within, IsEntry, Inside, ModelListAt;
    var ls, b := EnsureBlock(lines).value.lines, EnsureBlock(lines).value.span;
    var hand := Outside(ls, Some(b)).value;
    var e := Named(hand, name).value;
    var k :| 0 <= k < |hand| && hand[k] == e;
    OutsideText(ls, Some(b), k);
    TakenCounted(ls, e.at, e.at + |e.text|);
    var rest := Replaced(ls, e.at, e.at + |e.text|, []);
    AddedCounted(rest, BlockOf(rest).value.value.last, e.text);
  }

  // ---------------------------------------------------------- the entry moves --

  /** The entry that is adopted: the first of its name that rack takes for hand-kept. */
  function Hand(p: Parts, name: string): Entry
    requires ByHand(p, name)
  {
    Named(HandKept(p), name).value
  }

  /** The entry lies outside the block, and holds no marker. */
  predicate Clear(p: Parts, e: Entry) {
    e.at + |e.text| <= First(p) || (Last(p) < e.at && e.at + |e.text| <= |Lines(p)|)
  }

  /** The lines without n of them. */
  function Cut(ls: seq<string>, i: nat, n: nat): seq<string>
    requires i + n <= |ls|
  {
    ls[..i] + ls[i + n..]
  }

  /** The parts once such an entry is taken out. */
  function CutOut(p: Parts, e: Entry): Parts
    requires e.text != [] && Clear(p, e)
  {
    if e.at < First(p) then p.(front := Cut(p.front, e.at, |e.text|))
    else p.(back := Cut(p.back, e.at - (Last(p) + 1), |e.text|))
  }

  /** And with it moved to the end of the block. */
  function Adopted(p: Parts, e: Entry): Parts
    requires e.text != [] && Clear(p, e)
  {
    CutOut(p, e).(managed := p.managed + e.text)
  }

  lemma CutLines(p: Parts, e: Entry)
    requires e.text != [] && Clear(p, e)
    ensures e.at + |e.text| <= |Lines(p)|
    ensures Replaced(Lines(p), e.at, e.at + |e.text|, []) == Lines(CutOut(p, e))
    ensures Lines(CutOut(p, e)) == Cut(Lines(p), e.at, |e.text|)
  {
    hide *;
    PartsLengths(p);
    ClearIs(p, e);
    CutOutIs(p, e);
    if e.at < First(p) {
      CutFront(p, e.at, |e.text|);
    } else {
      CutBack(p, e.at - (Last(p) + 1), |e.text|);
    }
  }

  lemma CutOutIs(p: Parts, e: Entry)
    requires e.text != [] && Clear(p, e)
    ensures First(p) == |p.front|
    ensures if e.at < First(p) then
              && e.at + |e.text| <= |p.front| && CutOut(p, e) == p.(front := Cut(p.front, e.at, |e.text|))
            else
              && e.at >= Last(p) + 1 && e.at - (Last(p) + 1) + |e.text| <= |p.back|
              && CutOut(p, e) == p.(back := Cut(p.back, e.at - (Last(p) + 1), |e.text|))
  {
    hide Cut;
    PartsLengths(p);
  }

  lemma CutFront(p: Parts, i: nat, n: nat)
    requires i + n <= |p.front|
    ensures i + n <= |Lines(p)|
    ensures Replaced(Lines(p), i, i + n, []) == Cut(Lines(p), i, n) == Lines(p.(front := Cut(p.front, i, n)))
  {
    hide Cut, Replaced, Inner;
    CutMiddle([], p.front, Inner(p) + p.back, i, n);
    assert [] + p.front + (Inner(p) + p.back) == Lines(p);
    var q := p.(front := Cut(p.front, i, n));
    SameInner(p, q);
    assert [] + q.front + (Inner(q) + q.back) == Lines(q);
  }

  lemma CutBack(p: Parts, i: nat, n: nat)
    requires i + n <= |p.back|
    ensures Last(p) + 1 + i + n <= |Lines(p)|
    ensures var at := Last(p) + 1 + i;
            Replaced(Lines(p), at, at + n, []) == Cut(Lines(p), at, n) == Lines(p.(back := Cut(p.back, i, n)))
  {
    hide Cut, Replaced, Inner;
    InnerLength(p);
    CutMiddle(p.front + Inner(p), p.back, [], i, n);
    assert p.front + Inner(p) + p.back + [] == Lines(p);
    var q := p.(back := Cut(p.back, i, n));
    SameInner(p, q);
    assert q.front + Inner(q) + q.back + [] == Lines(q);
  }

  lemma SameInner(p: Parts, q: Parts)
    requires q.begin == p.begin && q.managed == p.managed && q.end == p.end
    ensures Inner(q) == Inner(p)
  {
  }

  lemma CutMiddle(a: seq<string>, m: seq<string>, b: seq<string>, i: nat, n: nat)
    requires i + n <= |m|
    ensures Replaced(a + m + b, |a| + i, |a| + i + n, []) == Cut(a + m + b, |a| + i, n) == a + Cut(m, i, n) + b
  {
    ReplacedMiddle(a, m, b, i, i + n, []);
    assert m[..i] + [] + m[i + n..] == Cut(m, i, n);
  }

  lemma CutUnmarked(ls: seq<string>, i: nat, n: nat)
    requires i + n <= |ls| && Unmarked(ls)
    ensures Unmarked(Cut(ls, i, n)) && Unmarked(ls[i..i + n]) && Unmarked(ls[..i]) && Unmarked(ls[i + n..])
  {
    hide Strip;
  }

  lemma CutMarked(p: Parts, e: Entry)
    requires Marked(p) && e.text != [] && Clear(p, e)
    ensures Marked(CutOut(p, e))
  {
    hide Strip, Unmarked;
    if e.at < First(p) {
      CutUnmarked(p.front, e.at, |e.text|);
    } else {
      CutUnmarked(p.back, e.at - (Last(p) + 1), |e.text|);
    }
  }

  /** Lines cut after the list's line leave it where it is. */
  lemma CutAfterList(ls: seq<string>, i: nat, n: nat)
    requires i + n <= |ls| && ModelListAt(ls).Some? && ModelListAt(ls).value < i
    ensures ModelListAt(Cut(ls, i, n)) == ModelListAt(ls)
  {
    hide ModelListAt;
    assert ls == ls[..i] + ls[i..];
    ModelListJoined(ls[..i], ls[i..]);
    ModelListJoined(ls[..i], ls[i + n..]);
  }

  lemma CutSited(p: Parts, e: Entry)
    requires Sited(p) && e.text != [] && Clear(p, e) && Base(p) <= e.at
    ensures Sited(CutOut(p, e))
  {
    hide *;
    SitedMarks(p);
    CutMarked(p, e);
    CutLines(p, e);
    RestAt(p);
    CutAfterList(Lines(p), e.at, |e.text|);
    SitedIs(CutOut(p, e));
  }

  /** What rack takes for hand-kept is an entry after the list's line, which begins outside the block and at neither
      marker. */
  lemma HandPlaced(p: Parts, name: string)
    requires Sited(p) && ByHand(p, name)
    ensures var e := Hand(p, name);
            && e.name == name && IsEntry(e.text, name) && e.text != [] && Base(p) <= e.at
            && e.at + |e.text| <= |Lines(p)| && e.text == Lines(p)[e.at..e.at + |e.text|]
            && (e.at < First(p) || Last(p) < e.at)
  {
    hide *;
    var e := HandIn(p, name);
    OutsideSited(p);
    RestAt(p);
    SitedMarks(p);
    AroundBlock(p);
    MarkersStand(p);
    var k :| 0 <= k < |HandKept(p)| && HandKept(p)[k] == e;
    OutsideText(Lines(p), Some(Span(First(p), Last(p))), k);
    InsideIs(e, p);
    EntryHead(e.text, name);
    EndAt(p);
    assert e.text[0] == Lines(p)[e.at];
  }

  lemma HandIn(p: Parts, name: string) returns (e: Entry)
    requires ByHand(p, name)
    ensures e == Hand(p, name) && e in HandKept(p) && e.name == name
  {
    hide HandKept;
    e := Hand(p, name);
  }

  lemma EndAt(p: Parts)
    ensures Last(p) < |Lines(p)| && Lines(p)[Last(p)] == p.end
  {
    AroundBlock(p);
  }

  lemma InsideIs(e: Entry, p: Parts)
    ensures Inside(e, Some(Span(First(p), Last(p)))) <==> First(p) < e.at < Last(p)
  {
    hide First, Last;
  }

  lemma EntryHead(t: seq<string>, name: string)
    requires IsEntry(t, name)
    ensures t != [] && ItemName(t[0]) == Some(name)
  {
    hide ItemName, Blank, Lead;
  }

  // --------------------------------------------------------- what adopt answers --

  /** adopt on any config with sound markers and a list: no such route; or, when an item from above the block takes
      markers in, the failure their loss makes; else the entry is moved, as written, to just before the end marker. */
  lemma AdoptWhen(p: Parts, name: string)
    requires Sited(p)
    ensures !ByHand(p, name) ==> Adopt(Lines(p), name) == Err(NoSuchRoute)
    ensures ByHand(p, name) ==>
              var e := Hand(p, name);
              && e.text != [] && (e.at < First(p) || Last(p) < e.at)
              && Adopt(Lines(p), name) ==
                 if Clear(p, e) then Ok(Edited(true, Lines(Adopted(p, e))))
                 else Err(if e.at + |e.text| <= Last(p) then DamagedMarkers else BlockLost)
  {
    hide *;
    SitedMarks(p);
    MarkedBlock(p);
    OutsideSited(p);
    Placed(p);
    EnsureFound(Lines(p));
    ByHandIs(p, name);
    if ByHand(p, name) {
      HandPlaced(p, name);
      var e := HandIn(p, name);
      HandNamed(p, name);
      ClearIs(p, e);
      if Clear(p, e) {
        CutLines(p, e);
        CutMarked(p, e);
        MarkedBlock(CutOut(p, e));
        AddedBack(p, e);
        AdoptFrom(Lines(p), Span(First(p), Last(p)), HandKept(p), name, e, Lines(CutOut(p, e)),
                  Span(First(CutOut(p, e)), Last(CutOut(p, e))));
      } else {
        MarkersTaken(p, e);
        AdoptFails(Lines(p), Span(First(p), Last(p)), HandKept(p), name, e);
      }
    } else {
      AdoptNone(Lines(p), Span(First(p), Last(p)), HandKept(p), name);
    }
  }

  lemma HandNamed(p: Parts, name: string)
    requires ByHand(p, name)
    ensures Named(HandKept(p), name) == Some(Hand(p, name))
  {
    hide HandKept, Named;
  }

  lemma ClearIs(p: Parts, e: Entry)
    ensures Clear(p, e) <==>
            e.at + |e.text| <= First(p) || (Last(p) < e.at && e.at + |e.text| <= |Lines(p)|)
  {
    hide First, Last, Lines;
  }

  /** What was taken out, put before the end marker, gives the adopted parts. */
  lemma AddedBack(p: Parts, e: Entry)
    requires e.text != [] && Clear(p, e)
    ensures var r := CutOut(p, e);
            && Last(r) <= |Lines(r)| && Replaced(Lines(r), Last(r), Last(r), e.text) == Lines(Adopted(p, e))
  {
    hide Lines, Replaced;
    var r := CutOut(p, e);
    ReplacedManaged(r, |r.managed|, |r.managed|, e.text);
    assert r.managed[..|r.managed|] + e.text + r.managed[|r.managed|..] == r.managed + e.text;
  }

  /** An entry from above the block that takes its begin marker out leaves unsound markers, or none. */
  lemma MarkersTaken(p: Parts, e: Entry)
    requires Marked(p) && e.at < First(p) < e.at + |e.text| <= |Lines(p)|
    ensures BlockOf(Replaced(Lines(p), e.at, e.at + |e.text|, [])) ==
            if e.at + |e.text| <= Last(p) then Err(DamagedMarkers) else Ok(None)
  {
    hide *;
    SitedParts(p);
    PartsLengths(p);
    AroundBlock(p);
    var i, after := e.at, e.at + |e.text|;
    FrontUnmarked(p.front, p.front[..i], p.front[i..]);
    if after <= Last(p) {
      var rest := p.managed[after - First(p) - 1..];
      CutAcross(p, i, after);
      FrontUnmarked(p.managed, p.managed[..after - First(p) - 1], rest);
      BothUnmarked(p.front[..i], rest);
      EndLeft(p.front[..i] + rest, p.end, p.back);
    } else {
      var rest := p.back[after - Last(p) - 1..];
      CutBeyond(p, i, after);
      FrontUnmarked(p.back, p.back[..after - Last(p) - 1], rest);
      BothUnmarked(p.front[..i], rest);
      NoBlock(p.front[..i] + rest);
    }
  }

  lemma SitedParts(p: Parts)
    requires Marked(p)
    ensures Unmarked(p.front) && Unmarked(p.managed) && Unmarked(p.back) && Strip(p.end) == END
    ensures First(p) == |p.front| && Last(p) == |p.front| + 1 + |p.managed|
  {
    hide Unmarked, Strip;
  }

  lemma CutAcross(p: Parts, i: nat, after: nat)
    requires i < First(p) < after <= Last(p) < |Lines(p)|
    ensures Replaced(Lines(p), i, after, [])
            == p.front[..i] + p.managed[after - First(p) - 1..] + ([p.end] + p.back)
  {
    var ls := Lines(p);
    assert ls[..i] == p.front[..i];
    assert ls[after..] == p.managed[after - First(p) - 1..] + ([p.end] + p.back);
  }

  lemma CutBeyond(p: Parts, i: nat, after: nat)
    requires i < First(p) && Last(p) < after <= |Lines(p)|
    ensures Replaced(Lines(p), i, after, []) == p.front[..i] + p.back[after - Last(p) - 1..]
  {
    var ls := Lines(p);
    assert ls[..i] == p.front[..i];
    assert ls[after..] == p.back[after - Last(p) - 1..];
  }

  lemma EndLeft(a: seq<string>, end: string, b: seq<string>)
    requires Unmarked(a) && Unmarked(b) && Strip(end) == END
    ensures BlockOf(a + ([end] + b)) == Err(DamagedMarkers)
  {
    hide Strip, Where;
    MarkerStrips();
    WhereOnce(a, end, b, END);
    FreeJoined([end], b, BEGIN);
    FreeJoined(a, [end] + b, BEGIN);
    WhereNone(a + ([end] + b), BEGIN);
  }

  lemma FrontUnmarked(ls: seq<string>, a: seq<string>, b: seq<string>)
    requires Unmarked(ls) && ls == a + b
    ensures Unmarked(a) && Unmarked(b)
  {
    hide Strip;
    assert forall k :: 0 <= k < |a| ==> a[k] == ls[k];
    assert forall k :: 0 <= k < |b| ==> b[k] == ls[|a| + k];
  }

  lemma BothUnmarked(a: seq<string>, b: seq<string>)
    requires Unmarked(a) && Unmarked(b)
    ensures Unmarked(a + b)
  {
    hide Strip;
  }

  lemma AdoptNone(ls: seq<string>, b: Span, hand: seq<Entry>, name: string)
    requires EnsureBlock(ls) == Ok(Ensured(ls, b)) && Outside(ls, Some(b)) == Ok(hand) && Named(hand, name) == None
    ensures Adopt(ls, name) == Err(NoSuchRoute)
  {
    hide EnsureBlock, Outside, Named, BlockOf;
  }

  lemma AdoptFrom(ls: seq<string>, b: Span, hand: seq<Entry>, name: string, e: Entry, rest: seq<string>, b2: Span)
    requires EnsureBlock(ls) == Ok(Ensured(ls, b)) && Outside(ls, Some(b)) == Ok(hand) && Named(hand, name) == Some(e)
    requires e.at + |e.text| <= |ls| && Replaced(ls, e.at, e.at + |e.text|, []) == rest
    requires BlockOf(rest) == Ok(Some(b2)) && b2.last <= |rest|
    ensures Adopt(ls, name) == Ok(Edited(true, Replaced(rest, b2.last, b2.last, e.text)))
  {
    hide EnsureBlock, Outside, Named, BlockOf, Replaced;
  }

  lemma AdoptFails(ls: seq<string>, b: Span, hand: seq<Entry>, name: string, e: Entry)
    requires EnsureBlock(ls) == Ok(Ensured(ls, b)) && Outside(ls, Some(b)) == Ok(hand) && Named(hand, name) == Some(e)
    requires e.at + |e.text| <= |ls|
    ensures var left := BlockOf(Replaced(ls, e.at, e.at + |e.text|, []));
            && (left.Err? ==> Adopt(ls, name) == Err(left.error))
            && (left == Ok(None) ==> Adopt(ls, name) == Err(BlockLost))
  {
    hide EnsureBlock, Outside, Named, BlockOf, Replaced;
  }

  // ------------------------------------------------------ where it is taken from --

  /** Cutting an item out of the front of some lines cuts it out of the lines. */
  lemma ItemCut(seen: seq<string>, rest: seq<string>, k: nat)
    requires k < |Listed(seen)|
    ensures var e := Items(seen)[k];
            && e.text == Listed(seen)[k].text && e.at + |e.text| <= |seen|
            && Cut(seen + rest, e.at, |e.text|) == Above(seen, k) + Below(seen, k) + rest
  {
    hide Items;
    var e := Items(seen)[k];
    assert (seen + rest)[..e.at] == seen[..e.at] && (seen + rest)[e.at + |e.text|..] == seen[e.at + |e.text|..] + rest;
  }

  /** The adopted entry is the first of its name above the block, or the first below. */
  lemma HandWhere(p: Parts, name: string)
    requires Whole(p) && Has(HandListing(p), name)
    ensures ByHand(p, name)
    ensures var k := IndexOf(HandListing(p), name);
            && k < |Found(p)| && k < |HandListing(p)| && Hand(p, name) == Found(p)[k]
            && HandListing(p)[k] == Route(name, Hand(p, name).text)
  {
    hide Whole, HandListing, Outside, Named, IndexOf, Lines, First, Last, Found, HandKept;
    WholeIs(p);
    ByHandListed(p, name);
    OutsideFound(p);
    NamedIs(HandKept(p), name);
    assert |Listing(HandKept(p))| == |HandKept(p)|;
  }

  lemma FoundUpper(p: Parts, k: nat)
    requires k < |Items(SeenUpper(p))|
    ensures k < |Found(p)|
    ensures var e := Items(SeenUpper(p))[k]; Found(p)[k] == e.(at := e.at + Base(p))
  {
    hide Items, SeenUpper, SeenLower, Base, Last, LowerAt;
    MovedEntries(Items(SeenUpper(p)), Base(p));
  }

  lemma FoundLower(p: Parts, k: nat)
    requires k < |Items(SeenLower(p))|
    ensures |Items(SeenUpper(p))| + k < |Found(p)|
    ensures var e := Items(SeenLower(p))[k];
            Found(p)[|Items(SeenUpper(p))| + k] == e.(at := e.at + (Last(p) + 1 + LowerAt(p)))
  {
    hide Items, SeenUpper, SeenLower, Base, Last, LowerAt;
    MovedEntries(Items(SeenUpper(p)), Base(p));
    MovedEntries(Items(SeenLower(p)), Last(p) + 1 + LowerAt(p));
  }

  /** The lines above the block, when the list is there. */
  lemma UpperFront(p: Parts)
    requires Sited(p) && Upper(p) != []
    ensures ModelListAt(p.front).Some? && UpperAt(p) == ModelListAt(p.front).value + 1 == Base(p) <= |p.front|
    ensures Upper(p) == p.front[Base(p)..] && First(p) == |p.front|
  {
    hide ModelListAt, Marked, Lines;
    AtWithin(p.front);
  }

  lemma LowerBack(p: Parts)
    requires Sited(p)
    ensures LowerAt(p) <= |p.back| && Lower(p) == p.back[LowerAt(p)..]
    ensures LowerAt(p) > 0 && Lower(p) != [] ==>
              && ModelListAt(p.front) == None && ModelListAt(p.managed) == None
              && ModelListAt(p.back).Some? && LowerAt(p) == ModelListAt(p.back).value + 1
    ensures LowerAt(p) == 0 ==> ModelListAt(p.front).Some? || ModelListAt(p.managed).Some? || p.back == []
  {
    hide ModelListAt, Marked, Lines;
    AtWithin(p.back);
  }

  lemma CutTail(ls: seq<string>, d: nat, i: nat, n: nat)
    requires d + i + n <= |ls|
    ensures Cut(ls, d + i, n)[d..] == Cut(ls[d..], i, n) && |Cut(ls, d + i, n)| >= d
  {
  }

  /** What an item taken out of the lines above changes. */
  lemma CutUpper(p: Parts, i: nat, n: nat)
    requires Sited(p) && i + n <= |Upper(p)| && 0 < n
    ensures Base(p) + i + n <= |p.front|
    ensures var r := p.(front := Cut(p.front, Base(p) + i, n));
            && Upper(r) == Cut(Upper(p), i, n) && Middle(r) == Middle(p) && Lower(r) == Lower(p)
  {
    hide ModelListAt, Cut, Inner, Sited;
    UpperFront(p);
    CutTail(p.front, Base(p), i, n);
    CutAfterList(p.front, Base(p) + i, n);
    SameInner(p, p.(front := Cut(p.front, Base(p) + i, n)));
  }

  lemma CutLower(p: Parts, i: nat, n: nat)
    requires Sited(p) && i + n <= |Lower(p)| && 0 < n
    ensures LowerAt(p) + i + n <= |p.back|
    ensures var r := p.(back := Cut(p.back, LowerAt(p) + i, n));
            && Upper(r) == Upper(p) && Middle(r) == Middle(p) && Lower(r) == Cut(Lower(p), i, n)
  {
    hide ModelListAt, Cut, Inner, Sited;
    LowerBack(p);
    CutTail(p.back, LowerAt(p), i, n);
    if LowerAt(p) > 0 {
      CutAfterList(p.back, LowerAt(p) + i, n);
    }
    SameInner(p, p.(back := Cut(p.back, LowerAt(p) + i, n)));
  }

  lemma SeenSplit(p: Parts)
    ensures |SeenUpper(p)| <= |Upper(p)| && Upper(p) == SeenUpper(p) + Upper(p)[|SeenUpper(p)|..]
    ensures |SeenLower(p)| <= |Lower(p)| && Lower(p) == SeenLower(p) + Lower(p)[|SeenLower(p)|..]
  {
    hide Stays, SectionLength, Upper, Lower, Middle;
  }

  /** The parts of the config without the adopted entry. */
  lemma TakenUpper(p: Parts, name: string)
    requires Whole(p) && Has(Listed(SeenUpper(p)), name)
    ensures Has(HandListing(p), name) && ByHand(p, name) && Hand(p, name).text != [] && Clear(p, Hand(p, name))
    ensures |SeenUpper(p)| <= |Upper(p)|
    ensures var r := CutOut(p, Hand(p, name));
            && r == p.(front := r.front)
            && Upper(r) == Without(SeenUpper(p), name) + Upper(p)[|SeenUpper(p)|..]
            && Middle(r) == Middle(p) && Lower(r) == Lower(p)
  {
    hide *;
    WholeIs(p);
    HandIs(p);
    IndexAppend(Listed(SeenUpper(p)), Listed(SeenLower(p)), name);
    HasSecond(Listed(SeenUpper(p)), Listed(SeenLower(p)), name);
    HandWhere(p, name);
    HandPlaced(p, name);
    var k := HasAtIndex(SeenUpper(p), name);
    ListedIs(SeenUpper(p));
    FoundUpper(p, k);
    SeenSplit(p);
    ItemCut(SeenUpper(p), Upper(p)[|SeenUpper(p)|..], k);
    var e := Items(SeenUpper(p))[k];
    CutUpper(p, e.at, |e.text|);
    PlacesAre(p);
    ClearIs(p, Hand(p, name));
    CutOutIs(p, Hand(p, name));
    WithoutIs(SeenUpper(p), name);
  }

  lemma TakenLower(p: Parts, name: string)
    requires Whole(p) && !Has(Listed(SeenUpper(p)), name) && Has(Listed(SeenLower(p)), name)
    ensures Has(HandListing(p), name) && ByHand(p, name) && Hand(p, name).text != [] && Clear(p, Hand(p, name))
    ensures |SeenLower(p)| <= |Lower(p)|
    ensures var r := CutOut(p, Hand(p, name));
            && r == p.(back := r.back)
            && Upper(r) == Upper(p) && Middle(r) == Middle(p)
            && Lower(r) == Without(SeenLower(p), name) + Lower(p)[|SeenLower(p)|..]
  {
    hide *;
    WholeIs(p);
    HandIs(p);
    IndexAppend(Listed(SeenUpper(p)), Listed(SeenLower(p)), name);
    HasSecond(Listed(SeenUpper(p)), Listed(SeenLower(p)), name);
    HandWhere(p, name);
    HandPlaced(p, name);
    var k := HasAtIndex(SeenLower(p), name);
    ListedIs(SeenUpper(p));
    ListedIs(SeenLower(p));
    FoundLower(p, k);
    SeenSplit(p);
    ItemCut(SeenLower(p), Lower(p)[|SeenLower(p)|..], k);
    var e := Items(SeenLower(p))[k];
    CutLower(p, e.at, |e.text|);
    PlacesAre(p);
    ClearIs(p, Hand(p, name));
    CutOutIs(p, Hand(p, name));
    WithoutIs(SeenLower(p), name);
  }

  // ------------------------------------------------------ what is listed then --

  /** Taking a name out of one listing after another takes it out of the first that has it. */
  lemma WithoutFirst(a: seq<Route>, b: seq<Route>, name: string)
    ensures WithoutListing(a + b, name)
         == if Has(a, name) then WithoutListing(a, name) + b else a + WithoutListing(b, name)
  {
    hide *;
    IndexAppend(a, b, name);
    HasSecond(a, b, name);
    WithoutAt(a, name);
    WithoutAt(b, name);
    WithoutAt(a + b, name);
    if Has(a, name) {
      DropFromFirst(a, b, IndexOf(a, name));
    } else if Has(b, name) {
      DropFromSecond(a, b, IndexOf(b, name));
    }
  }

  lemma WithoutAt(rs: seq<Route>, name: string)
    ensures var k := IndexOf(rs, name);
            && (Has(rs, name) ==> k < |rs| && WithoutListing(rs, name) == rs[..k] + rs[k + 1..])
            && (!Has(rs, name) ==> WithoutListing(rs, name) == rs)
  {
    hide IndexOf;
  }

  lemma DropFromFirst(a: seq<Route>, b: seq<Route>, i: nat)
    requires i < |a|
    ensures (a + b)[..i] + (a + b)[i + 1..] == a[..i] + a[i + 1..] + b
  {
  }

  lemma DropFromSecond(a: seq<Route>, b: seq<Route>, j: nat)
    requires j < |b|
    ensures (a + b)[..|a| + j] + (a + b)[|a| + j + 1..] == a + (b[..j] + b[j + 1..])
  {
  }

  lemma EntryAt(ls: seq<string>, k: nat)
    requires k < |Listed(ls)|
    ensures IsEntry(Listed(ls)[k].text, Listed(ls)[k].name) && Listed(ls)[k].text != []
    ensures forall x :: x in Listed(ls)[k].text ==> x in ls
  {
    hide Listed, IsEntry, Above, Below, Closed, HeldOpen, Lead;
    CutAround(ls, k);
    CutStarts(ls, k);
    assert forall x :: x in Above(ls, k) + (Listed(ls)[k].text + Below(ls, k)) <==> x in ls;
  }

  /** The rest of a section's lines adds nothing to it. */
  lemma {:induction false} SectionRest(ls: seq<string>)
    ensures SectionLength(ls[SectionLength(ls)..]) == 0
  {
    hide Blank, LeavesSection;
    if ls != [] && !LeavesSection(ls[0]) {
      SectionRest(ls[1..]);
      var n := SectionLength(ls[1..]);
      assert ls[n + 1..] == ls[1..][n..];
      assert ls[0..] == ls && ls[1..][0..] == ls[1..];
    } else {
      assert ls[0..] == ls;
    }
  }

  /** Taking an item out of what is seen of some lines takes it out of what is seen of them after. */
  lemma SeenWithout(ls: seq<string>, name: string)
    ensures var n := SectionLength(ls);
            var after := Without(ls[..n], name) + ls[n..];
            && Listed(after[..SectionLength(after)]) == WithoutListing(Listed(ls[..n]), name)
            && (Stays(after) <==> Stays(ls))
  {
    hide *;
    var n := SectionLength(ls);
    SectionSpec(ls);
    UpdatedFrom(ls[..n], name, []);
    WithoutLists(ls[..n], name);
    SectionRest(ls);
    SeenFront(Without(ls[..n], name), ls[n..]);
    StaysBoth(Without(ls[..n], name), ls[n..]);
    StaysParts(ls, n);
  }

  lemma SeenFront(a: seq<string>, b: seq<string>)
    requires Stays(a) && SectionLength(b) == 0
    ensures Listed((a + b)[..SectionLength(a + b)]) == Listed(a)
  {
    hide *;
    SectionAppend(a, b);
    SeenAll(a);
    ListedIs(a);
    ListedIs(a[..SectionLength(a)]);
    FrontOf(a, b, SectionLength(a));
  }

  lemma StaysParts(ls: seq<string>, n: nat)
    requires n <= |ls|
    ensures Stays(ls) <==> Stays(ls[..n]) && Stays(ls[n..])
  {
    hide Stays;
    StaysBoth(ls[..n], ls[n..]);
    assert ls == ls[..n] + ls[n..];
  }

  lemma FrontOf(a: seq<string>, b: seq<string>, n: nat)
    requires n <= |a|
    ensures (a + b)[..n] == a[..n]
  {
  }

  lemma StaysFrom(t: seq<string>, a: seq<string>, b: seq<string>)
    requires Stays(a) && Stays(b) && forall x :: x in t ==> x in a || x in b
    ensures Stays(t)
  {
    hide LeavesSection;
    forall k | 0 <= k < |t|
      ensures !LeavesSection(t[k])
    {
      assert t[k] in t;
    }
  }

  lemma HasNothing(name: string)
    ensures !Has([], name)
  {
  }

  lemma HeldSame(a: seq<string>, b: seq<string>, deep: nat)
    requires OpenDash(a) == OpenDash(b)
    ensures HeldOpen(a, deep) <==> HeldOpen(b, deep)
  {
    hide OpenDash;
  }

  lemma SeenStay(p: Parts)
    ensures Stays(SeenUpper(p)) && Stays(SeenLower(p))
  {
    hide Stays, SectionLength, Upper, Middle, Lower;
    SectionSpec(Upper(p));
    SectionSpec(Lower(p));
    NothingLeaves();
  }

  /** The adopted entry's lines. */
  lemma HandText(p: Parts, name: string)
    requires Whole(p) && Has(HandListing(p), name)
    ensures ByHand(p, name) && IsEntry(Hand(p, name).text, name) && Hand(p, name).text != []
    ensures Stays(Hand(p, name).text)
  {
    hide *;
    WholeIs(p);
    HandIs(p);
    HandWhere(p, name);
    HandPlaced(p, name);
    SeenStay(p);
    IndexAppend(Listed(SeenUpper(p)), Listed(SeenLower(p)), name);
    HasSecond(Listed(SeenUpper(p)), Listed(SeenLower(p)), name);
    if Has(Listed(SeenUpper(p)), name) {
      var k := HasAtIndex(SeenUpper(p), name);
      EntryAt(SeenUpper(p), k);
      StaysFrom(Hand(p, name).text, SeenUpper(p), SeenLower(p));
    } else {
      var k := HasAtIndex(SeenLower(p), name);
      EntryAt(SeenLower(p), k);
      StaysFrom(Hand(p, name).text, SeenUpper(p), SeenLower(p));
    }
  }

  /** What is seen of the lines above, and of those below when the list goes on to them. */
  lemma SeenMeans(p: Parts)
    ensures SeenUpper(p) == Upper(p)[..SectionLength(Upper(p))] && |SeenUpper(p)| == SectionLength(Upper(p))
    ensures Stays(Upper(p)) && Stays(Middle(p)) ==>
              SeenLower(p) == Lower(p)[..SectionLength(Lower(p))] && |SeenLower(p)| == SectionLength(Lower(p))
    ensures !(Stays(Upper(p)) && Stays(Middle(p))) ==> SeenLower(p) == []
  {
    hide SectionLength, Stays, Upper, Middle, Lower;
  }

  /** The hand-kept listing loses the adopted item and nothing else, and the list ends where it did. */
  lemma TakenListing(p: Parts, name: string)
    requires Whole(p) && Has(HandListing(p), name)
    ensures ByHand(p, name) && Hand(p, name).text != [] && Clear(p, Hand(p, name))
    ensures var r := CutOut(p, Hand(p, name));
            && HandListing(r) == WithoutListing(HandListing(p), name)
            && (Stays(Upper(r)) <==> Stays(Upper(p)))
  {
    hide *;
    HandIs(p);
    WithoutFirst(Listed(SeenUpper(p)), Listed(SeenLower(p)), name);
    HasSecond(Listed(SeenUpper(p)), Listed(SeenLower(p)), name);
    SeenMeans(p);
    if Has(Listed(SeenUpper(p)), name) {
      TakenUpper(p, name);
      var r := CutOut(p, Hand(p, name));
      SeenMeans(r);
      HandIs(r);
      SeenWithout(Upper(p), name);
    } else {
      TakenLower(p, name);
      var r := CutOut(p, Hand(p, name));
      SeenMeans(r);
      HandIs(r);
      if !(Stays(Upper(p)) && Stays(Middle(p))) {
        NothingListed();
        HasNothing(name);
        assert false;
      }
      SeenWithout(Lower(p), name);
    }
  }

  // --------------------------------------------- no item across a marker then --

  /** Lines that list nothing up to where some indentation ends list nothing up to there without an item. */
  lemma CutNone(ls: seq<string>, k: nat, ind: nat)
    requires k < |Listed(ls)| && Items(ls[..Body(ls, ind)]) == []
    ensures var w := Above(ls, k) + Below(ls, k); Items(w[..Body(w, ind)]) == []
  {
    hide *;
    CutAround(ls, k);
    CutStarts(ls, k);
    AtAbove(ls, k);
    var a, t, b := Above(ls, k), Listed(ls)[k].text, Below(ls, k);
    var m := Body(ls, ind);
    ItemsAfterBody(ls, ind);
    MovedEntries(Items(ls[m..]), m);
    BodyWithinLines(ls, ind);
    BodyAppend(a, t + b, ind);
    BodyAppend(a, b, ind);
    if Body(a, ind) == |a| {
      ShortBody(t, Listed(ls)[k].name, b, ind);
      ClosesMore(b, Lead(t[0]), ind);
      ClosedBody(b, ind);
      BodyWithinLines(b, ind);
      FrontJoined(a, t + b, b, m, Body(b, ind));
      ItemsThenBlanks(a, b[..Body(b, ind)]);
    } else {
      BodyWithinLines(a, ind);
      FrontSame(a, t + b, b, m);
    }
  }

  lemma AtAbove(ls: seq<string>, k: nat)
    requires k < |Listed(ls)|
    ensures k < |Items(ls)| && |Above(ls, k)| == Items(ls)[k].at
  {
    hide Items;
  }

  lemma BodyWithinLines(ls: seq<string>, ind: nat)
    ensures Body(ls, ind) <= |ls|
  {
    hide Body;
  }

  /** An entry that some indentation's body goes no further than begins no deeper than it. */
  lemma ShortBody(t: seq<string>, name: string, b: seq<string>, ind: nat)
    requires IsEntry(t, name) && t != []
    ensures Body(t + b, ind) == 0 <==> Lead(t[0]) <= ind
  {
    hide Lead, Blank;
    EntryOpen(t, name);
    assert (t + b)[0] == t[0];
  }

  lemma FrontJoined(a: seq<string>, x: seq<string>, b: seq<string>, m: nat, n: nat)
    requires m == |a| && n <= |b|
    ensures (a + x)[..m] == a && (a + b)[..|a| + n] == a + b[..n]
  {
  }

  lemma FrontSame(a: seq<string>, x: seq<string>, b: seq<string>, m: nat)
    requires m <= |a|
    ensures (a + x)[..m] == (a + b)[..m]
  {
  }

  /** What is seen of lines without an item lists nothing there either. */
  lemma SeenNone(w: seq<string>, rest: seq<string>, ind: nat)
    requires Stays(w) && SectionLength(rest) == 0 && Items(w[..Body(w, ind)]) == []
    ensures var seen := (w + rest)[..SectionLength(w + rest)]; Items(seen[..Body(seen, ind)]) == []
  {
    hide *;
    SectionAppend(w, rest);
    LengthWithin(w);
    var n := SectionLength(w);
    FrontOf(w, rest, n);
    BodyAppend(w[..n], w[n..], ind);
    assert w[..n] + w[n..] == w;
    BodyWithinLines(w[..n], ind);
    BodyWithinLines(w, ind);
    BodyWithinLines(w[n..], ind);
    var j, m := Body(w[..n], ind), Body(w, ind);
    assert w[..n][..j] == w[..m][..j];
    NoneBefore(w[..m], j);
  }

  lemma LengthWithin(ls: seq<string>)
    ensures SectionLength(ls) <= |ls|
  {
    hide SectionLength;
  }

  /** Taking the entry out makes no item take one in across a marker. */
  lemma TakenWhole(p: Parts, name: string)
    requires Whole(p) && Has(HandListing(p), name)
    ensures ByHand(p, name) && Hand(p, name).text != [] && Clear(p, Hand(p, name))
    ensures Whole(CutOut(p, Hand(p, name)))
  {
    hide *;
    WholeIs(p);
    TakenListing(p, name);
    HandPlaced(p, name);
    CutSited(p, Hand(p, name));
    var r := CutOut(p, Hand(p, name));
    HandIs(p);
    HasSecond(Listed(SeenUpper(p)), Listed(SeenLower(p)), name);
    WholeIs(r);
    SeenMeans(p);
    SeenMeans(r);
    UpperHeldIs(p);
    UpperHeldIs(r);
    LostMeans(r);
    if Has(Listed(SeenUpper(p)), name) {
      TakenUpper(p, name);
      UpperOpen(Upper(p), name, Lead(p.begin));
      SameLost(p, r);
    } else {
      TakenLower(p, name);
      if SeenLower(r) == [] {
        NoneOf(SeenLower(r), Lost(r));
      } else {
        LengthWithin(Lower(p));
        NothingListed();
        HasNothing(name);
        LowerNone(p, r, name);
      }
    }
  }

  lemma UpperHeldIs(p: Parts)
    ensures UpperHeld(p) <==> Stays(Upper(p)) && !LeavesSection(p.begin) && HeldOpen(Upper(p), Lead(p.begin))
  {
    hide Stays, LeavesSection, HeldOpen, Upper, Lead;
  }

  /** Lines without an item are held open no deeper. */
  lemma UpperOpen(ls: seq<string>, name: string, deep: nat)
    ensures SectionLength(ls) <= |ls|
    ensures var n := SectionLength(ls);
            Stays(ls) && HeldOpen(Without(ls[..n], name) + ls[n..], deep) ==> HeldOpen(ls, deep)
  {
    hide *;
    LengthWithin(ls);
    var n := SectionLength(ls);
    if Stays(ls) {
      SeenAll(ls);
      SectionEnds(ls);
      ItemsThenBlanks(Without(ls[..n], name), ls[n..]);
      WithoutOpen(ls[..n], name, deep);
      HeldSame(ls, ls[..n], deep);
      HeldSame(Without(ls[..n], name) + ls[n..], Without(ls[..n], name), deep);
    }
  }

  lemma SameLost(p: Parts, r: Parts)
    requires Whole(p) && Sited(r) && !UpperHeld(r) && Middle(r) == Middle(p) && SeenLower(r) == SeenLower(p)
    requires r == p.(front := r.front)
    ensures Items(SeenLower(r)[..Lost(r)]) == []
  {
    hide *;
    WholeIs(p);
    LostMeans(r);
    if SeenLower(r) == [] {
      NoneOf(SeenLower(r), Lost(r));
    } else {
      LostBy(p);
      LostBy(r);
    }
  }

  lemma LowerNone(p: Parts, r: Parts, name: string)
    requires Whole(p) && Sited(r) && !UpperHeld(r) && r == p.(back := r.back) && Middle(r) == Middle(p)
    requires Has(Listed(SeenLower(p)), name) && SeenLower(p) != [] && SeenLower(r) != []
    requires SeenLower(p) == Lower(p)[..SectionLength(Lower(p))] && |SeenLower(p)| == SectionLength(Lower(p))
    requires SectionLength(Lower(p)) <= |Lower(p)|
    requires Lower(r) == Without(SeenLower(p), name) + Lower(p)[|SeenLower(p)|..]
    requires SeenLower(r) == Lower(r)[..SectionLength(Lower(r))]
    ensures Items(SeenLower(r)[..Lost(r)]) == []
  {
    hide *;
    WholeIs(p);
    LostBy(p);
    LostBy(r);
    LostMeans(r);
    HeldIs(p.managed, Lead(p.end));
    if Middle(p) != [] && HeldOpen(p.managed, Lead(p.end)) {
      var x := OpenDash(p.managed).value;
      var k := HasAtIndex(SeenLower(p), name);
      WithoutIs(SeenLower(p), name);
      CutNone(SeenLower(p), k, x);
      SectionSpec(Lower(p));
      UpdatedFrom(SeenLower(p), name, []);
      SectionRest(Lower(p));
      SeenNone(Without(SeenLower(p), name), Lower(p)[|SeenLower(p)|..], x);
    } else {
      NoneOf(SeenLower(r), Lost(r));
    }
  }

  /** An entry that stays in the list, put last in the block, ends it no sooner. */
  lemma AlikeAdded(p: Parts, t: seq<string>)
    requires Stays(t) && ModelListAt(t) == None
    ensures EndsAlike(p, p.(managed := p.managed + t)) && SameSide(p, p.managed + t)
  {
    hide *;
    var q := p.(managed := p.managed + t);
    ModelListJoined(p.managed, t);
    SideIs(p, p.managed + t);
    SamePlace(p, p.managed + t);
    if Middle(p) == [] {
      AlikeIs(p, q);
    } else {
      var m := MiddleAdded(p, t);
      AlikeIs(p, q);
      StaysBoth(m + t, [p.end]);
      StaysBoth(m, t);
      StaysBoth(m, [p.end]);
    }
  }

  // ----------------------------------------------------------- what adopt promises --

  lemma AdoptedSited(p: Parts, name: string)
    requires Sited(p) && ByHand(p, name) && Hand(p, name).text != [] && Clear(p, Hand(p, name))
    ensures Sited(Adopted(p, Hand(p, name))) && SameSide(CutOut(p, Hand(p, name)), p.managed + Hand(p, name).text)
  {
    hide *;
    HandPlaced(p, name);
    var e := Hand(p, name);
    CutSited(p, e);
    CutOutIs(p, e);
    var r := CutOut(p, e);
    SitedMarked(p);
    SitedUnmarked(p);
    EntryNoList(e.text, name);
    ModelListJoined(p.managed, e.text);
    SideIs(r, p.managed + e.text);
    EntryUnmarked(p, e);
    BothUnmarked(p.managed, e.text);
    EditedSited(r, p.managed + e.text);
    AdoptedIs(p, e);
  }

  lemma AdoptedIs(p: Parts, e: Entry)
    requires e.text != [] && Clear(p, e)
    ensures Adopted(p, e) == CutOut(p, e).(managed := p.managed + e.text)
    ensures CutOut(p, e).managed == p.managed && CutOut(p, e).begin == p.begin && CutOut(p, e).end == p.end
  {
    hide Cut;
  }

  lemma EntryUnmarked(p: Parts, e: Entry)
    requires Marked(p) && e.text != [] && Clear(p, e) && e.at + |e.text| <= |Lines(p)|
    requires e.text == Lines(p)[e.at..e.at + |e.text|]
    ensures Unmarked(e.text)
  {
    hide Strip, Unmarked;
    CutOutIs(p, e);
    PartsLengths(p);
    if e.at < First(p) {
      CutUnmarked(p.front, e.at, |e.text|);
      assert Lines(p)[e.at..e.at + |e.text|] == p.front[e.at..e.at + |e.text|];
    } else {
      var i := e.at - (Last(p) + 1);
      CutUnmarked(p.back, i, |e.text|);
      assert Lines(p)[e.at..e.at + |e.text|] == p.back[i..i + |e.text|];
    }
  }

  /** Where no item takes one in across a marker, adopt finds what is written by hand, and nothing is in its way. */
  lemma AdoptGood(p: Parts, name: string)
    requires Whole(p)
    ensures ByHand(p, name) <==> Has(HandListing(p), name)
    ensures Adopt(Lines(p), name) == Err(NoSuchRoute) <==> !ByHand(p, name)
    ensures ByHand(p, name) ==>
              var e := Hand(p, name);
              && HandListing(p)[IndexOf(HandListing(p), name)] == Route(name, e.text)
              && e.text != [] && Clear(p, e) && Adopt(Lines(p), name) == Ok(Edited(true, Lines(Adopted(p, e))))
  {
    hide *;
    WholeIs(p);
    AdoptWhen(p, name);
    ByHandListed(p, name);
    if ByHand(p, name) {
      HandWhere(p, name);
      TakenListing(p, name);
    }
  }

  /** adopt's promise: the lines are permuted; the entry stands as written just before the end marker; the managed items
      keep their lines and their places, with the entry last among them, exactly when none of them is held open to it;
      and status follows. Where no item takes one in across a marker every other hand-kept item keeps its lines and its
      place. */
  lemma AdoptOnlyMoves(p: Parts, name: string)
    requires Sited(p) && Adopt(Lines(p), name).Ok?
    ensures ByHand(p, name) && Hand(p, name).text != [] && Clear(p, Hand(p, name))
    ensures var e, q := Hand(p, name), Adopted(p, Hand(p, name));
            && Adopt(Lines(p), name) == Ok(Edited(true, Lines(q))) && Sited(q)
            && multiset(Lines(q)) == multiset(Lines(p))
            && q.managed == p.managed + e.text
            && (Listed(q.managed) == Listed(p.managed) + [Route(name, e.text)]
                <==> !HeldOpen(p.managed, Lead(e.text[0])))
            && StatusOf(Lines(q)) == Ok(Status(RouteNames(Listed(q.managed)), RouteNames(HandSeen(q)), true))
            && (Whole(p) ==> HandListing(q) == WithoutListing(HandListing(p), name))
            && (Whole(p) && (!Stays(Upper(p)) || Lead(p.end) <= Lead(e.text[0])) ==>
                  Whole(q) && RouteNames(HandSeen(q)) == RouteNames(WithoutListing(HandListing(p), name)))
  {
    hide *;
    AdoptWhen(p, name);
    HandPlaced(p, name);
    var e := Hand(p, name);
    var q := Adopted(p, e);
    AdoptedIs(p, e);
    AdoptPermutes(Lines(p), name);
    SitedMarks(p);
    MarkedBlock(p);
    EnsureFound(Lines(p));
    ListedAdded(p.managed, e.text, name);
    AdoptedSited(p, name);
    StatusGood(q);
    if Whole(p) {
      AdoptedListing(p, name);
      if !Stays(Upper(p)) || Lead(p.end) <= Lead(e.text[0]) {
        AdoptedWhole(p, name);
      }
    }
  }

  lemma AdoptedListing(p: Parts, name: string)
    requires Whole(p) && ByHand(p, name) && Hand(p, name).text != [] && Clear(p, Hand(p, name))
    ensures var r, q := CutOut(p, Hand(p, name)), Adopted(p, Hand(p, name));
            && HandListing(q) == WithoutListing(HandListing(p), name)
            && EndsAlike(r, q) && (Stays(Upper(r)) <==> Stays(Upper(p)))
  {
    hide *;
    ByHandListed(p, name);
    HandText(p, name);
    var e := Hand(p, name);
    var r := CutOut(p, e);
    AdoptedIs(p, e);
    TakenListing(p, name);
    EntryNoList(e.text, name);
    AlikeAdded(r, e.text);
    SamePlace(r, p.managed + e.text);
  }

  lemma AdoptedWhole(p: Parts, name: string)
    requires Whole(p) && ByHand(p, name) && Hand(p, name).text != [] && Clear(p, Hand(p, name))
    requires !Stays(Upper(p)) || Lead(p.end) <= Lead(Hand(p, name).text[0])
    ensures Whole(Adopted(p, Hand(p, name)))
  {
    hide *;
    WholeIs(p);
    ByHandListed(p, name);
    HandText(p, name);
    var e := Hand(p, name);
    var r, q := CutOut(p, e), Adopted(p, e);
    AdoptedIs(p, e);
    AdoptedSited(p, name);
    AdoptedListing(p, name);
    TakenWhole(p, name);
    if Stays(Upper(p)) {
      HeldIs(q.managed, Lead(p.end));
      HeldIs(p.managed, Lead(p.end));
      if HeldOpen(q.managed, Lead(p.end)) {
        var y := OpenDash(q.managed).value;
        HeldIs(q.managed, y + 1);
        HeldIs(p.managed, y + 1);
        AddedOpen(p.managed, e.text, name, y + 1);
      }
      WholeKept(r, q.managed);
    } else {
      EndedAbove(r, q.managed);
    }
  }

  /** Where the list ends above the block nothing in it can matter. */
  lemma EndedAbove(p: Parts, managed: seq<string>)
    requires Sited(p.(managed := managed)) && SameSide(p, managed) && !Stays(Upper(p))
    ensures Whole(p.(managed := managed))
  {
    hide *;
    var q := p.(managed := managed);
    SamePlace(p, managed);
    UpperHeldIs(q);
    SeenMeans(q);
    LostMeans(q);
    NoneOf(SeenLower(q), Lost(q));
    WholeIs(q);
  }
}
