/** What a second sync does: which hand-kept items are seen after the first, and when it changes nothing. */
module GatewayAgain {
  import opened Prelude
  import opened Text
  import opened Gateway
  import opened GatewayItems
  import opened GatewayConfig
  import opened GatewayEdits

  // ------------------------------------------------- what is open at the end --

  /** A dash that is still open past a line indented so deep. */
  function Still(dash: Option<nat>, deep: nat): Option<nat> {
    if dash.Some? && dash.value < deep then dash else None
  }

  /** The dash open just before the end marker: one from above that takes all the block in, or the block's. */
  function Through(p: Parts): Option<nat> {
    var above := OpenDash(Upper(p));
    if above.Some? && Body([p.begin] + p.managed, above.value) == 1 + |p.managed| then above else OpenDash(p.managed)
  }

  /** How many lines below the block an item takes in, from what is open just before the end marker. */
  lemma LostThrough(p: Parts)
    requires Sited(p)
    ensures Lost(p) == if Middle(p) == [] then 0 else Past(SeenLower(p), Still(Through(p), Lead(p.end)))
  {
    hide *;
    LostMeans(p);
    if Middle(p) == [] {
      RestAt(p);
      assert [] + Middle(p) == [];
      OpenNothing();
      PastIs(SeenLower(p), None);
    } else {
      SitedMarks(p);
      var m := BeforeEnd(p);
      MarkerLine(p.end);
      MarkerListed(p.end, []);
      OpenNothing();
      assert [p.end] + [] == [p.end];
      OpenJoined(m, [p.end]);
      StillIs(Through(p), Lead(p.end));
      if OpenDash(m).Some? {
        BodyOne(p.end, OpenDash(m).value);
      }
    }
  }

  lemma StillIs(dash: Option<nat>, deep: nat)
    ensures Still(dash, deep) == if dash.Some? && dash.value < deep then dash else None
  {
  }

  /** The section's lines before the end marker. */
  lemma BeforeEnd(p: Parts) returns (m: seq<string>)
    requires Sited(p) && Middle(p) != []
    ensures Upper(p) + Middle(p) == m + [p.end] && OpenDash(m) == Through(p)
  {
    hide OpenDash, ModelListAt, Strip, Unmarked, Lead, HeldOpen, Joins, Items, UpperAt, Body, Marked, Lines;
    SitedMarks(p);
    AtWithin(p.managed);
    OpenNothing();
    if MiddleAt(p) == 0 {
      m := Upper(p) + ([p.begin] + p.managed);
      assert Middle(p) == [p.begin] + p.managed + [p.end];
      MarkerListed(p.begin, p.managed);
      OpenJoined(Upper(p), [p.begin] + p.managed);
    } else {
      RestAt(p);
      var j := ModelListAt(p.managed).value;
      m := p.managed[j + 1..];
      assert Middle(p) == m + [p.end] && [] + Middle(p) == Middle(p);
      ModelListSpec(p.managed);
      ListCloses(p.managed, j);
    }
  }

  // ---------------------------------------------- what is seen after a sync --

  /** What managed lines leave open once a route of this name, with its dash at ind, is put there. */
  function OpenAfter(ls: seq<string>, name: string, ind: nat): Option<nat> {
    var k := IndexOf(Listed(ls), name);
    if k < |Listed(ls)| then
      if HeldOpen(Above(ls, k), ind) && AllBlank(Below(ls, k)) then OpenDash(Above(ls, k))
      else if Body(Below(ls, k), ind) == |Below(ls, k)| then Some(ind) else OpenDash(Below(ls, k))
    else if HeldOpen(ls, ind) then OpenDash(ls) else Some(ind)
  }

  /** What is open just before the end marker then. */
  function ThroughAfter(p: Parts, name: string, ind: nat): Option<nat> {
    var above, rest := OpenDash(Upper(p)), [p.begin] + Without(p.managed, name);
    if above.Some? && above.value < ind && Body(rest, above.value) == |rest| then above
    else OpenAfter(p.managed, name, ind)
  }

  /** What is seen of the lines below then: the list goes on to them unless a line in or above the block ends it. */
  function LowerAfter(p: Parts, name: string, route: seq<string>): seq<string> {
    if Stays(Upper(p)) && Stays(Middle(p.(managed := Updated(p.managed, name, route))))
    then Lower(p)[..SectionLength(Lower(p))] else []
  }

  /** The items outside the block that rack sees once a route of this name is put in it. */
  function SeenAfter(p: Parts, name: string, route: seq<string>): seq<Route>
    requires route != []
  {
    var below := LowerAfter(p, name, route);
    var n := if Middle(p) == [] then 0 else Past(below, Still(ThroughAfter(p, name, Lead(route[0])), Lead(p.end)));
    Listed(SeenUpper(p)) + Listed(below[n..])
  }

  lemma OpenUpdated(ls: seq<string>, name: string, route: seq<string>)
    requires IsEntry(route, name) && route != []
    ensures OpenDash(Updated(ls, name, route)) == OpenAfter(ls, name, Lead(route[0]))
  {
    EntryOpen(route, name);
    hide *;
    var ind := Lead(route[0]);
    if Has(Listed(ls), name) {
      var k := HasAtIndex(ls, name);
      CutAround(ls, k);
      CutStarts(ls, k);
      UpdatedIs(ls, name, route);
      AfterPlaced(ls, name, ind);
      OpenPlaced(Above(ls, k), Listed(ls)[k].text, Listed(ls)[k].name, Below(ls, k), route, name);
    } else {
      UpdatedNew(ls, name, route);
      AfterNew(ls, name, ind);
      OpenAdded(ls, name, route);
    }
  }

  lemma AfterPlaced(ls: seq<string>, name: string, ind: nat)
    requires Has(Listed(ls), name)
    ensures IndexOf(Listed(ls), name) < |Listed(ls)|
    ensures var k := IndexOf(Listed(ls), name);
            var a, b := Above(ls, k), Below(ls, k);
            OpenAfter(ls, name, ind) == if HeldOpen(a, ind) && AllBlank(b) then OpenDash(a)
                                        else if Body(b, ind) == |b| then Some(ind) else OpenDash(b)
  {
    hide Listed, IndexOf, Above, Below, HeldOpen, AllBlank, Body, OpenDash;
  }

  lemma AfterNew(ls: seq<string>, name: string, ind: nat)
    requires !Has(Listed(ls), name)
    ensures OpenAfter(ls, name, ind) == if HeldOpen(ls, ind) then OpenDash(ls) else Some(ind)
  {
    hide Listed, IndexOf, HeldOpen, OpenDash;
  }

  lemma OpenAdded(ls: seq<string>, name: string, t: seq<string>)
    requires IsEntry(t, name) && t != []
    ensures OpenDash(ls + t) == if HeldOpen(ls, Lead(t[0])) then OpenDash(ls) else Some(Lead(t[0]))
  {
    EntryOpen(t, name);
    hide OpenDash, Lead, Blank;
    OpenJoined(ls, t);
    if OpenDash(ls).Some? {
      BodyOfEntry(t, name, OpenDash(ls).value);
    }
  }

  /** An entry is all deeper than some indentation, or stops there. */
  lemma BodyOfEntry(t: seq<string>, name: string, ind: nat)
    requires IsEntry(t, name) && t != []
    ensures Body(t, ind) == if ind < Lead(t[0]) then |t| else 0
  {
    hide Lead;
    EntryOpen(t, name);
    if ind < Lead(t[0]) {
      EntryDeep(t, name, ind);
    } else {
      BodyStops(t, ind);
    }
  }

  lemma OpenPlaced(a: seq<string>, was: seq<string>, named: string, b: seq<string>, t: seq<string>, name: string)
    requires IsEntry(was, named) && was != [] && !HeldOpen(a, Lead(was[0])) && Closed(b, Lead(was[0]))
    requires IsEntry(t, name) && t != []
    ensures OpenDash(a + (t + b)) == if HeldOpen(a, Lead(t[0])) && AllBlank(b) then OpenDash(a)
                                     else if Body(b, Lead(t[0])) == |b| then Some(Lead(t[0])) else OpenDash(b)
  {
    EntryOpen(t, name);
    hide *;
    HeldIs(a, Lead(was[0]));
    HeldIs(a, Lead(t[0]));
    OpenJoined(a, t + b);
    OpenJoined(t, b);
    if OpenDash(a).Some? {
      var x := OpenDash(a).value;
      BodyAppend(t, b, x);
      BodyOfEntry(t, name, x);
      ClosesMore(b, Lead(was[0]), x);
      BlankBody(b, x);
      BodySize(t, b, x);
    }
  }

  lemma BodySize(t: seq<string>, b: seq<string>, ind: nat)
    requires t != []
    ensures |t + b| == |t| + |b| > 0 && Body(b, ind) <= |b|
  {
    hide Body;
  }

  /** The route is put in where no item from above it ends, if that takes the rest in too. */
  lemma ThroughUpdated(p: Parts, name: string, route: seq<string>)
    requires IsEntry(route, name) && route != []
    requires Upper(p.(managed := Updated(p.managed, name, route))) == Upper(p)
    ensures Through(p.(managed := Updated(p.managed, name, route))) == ThroughAfter(p, name, Lead(route[0]))
  {
    hide *;
    var q := p.(managed := Updated(p.managed, name, route));
    OpenUpdated(p.managed, name, route);
    ThroughIs(q);
    AfterIs(p, name, Lead(route[0]));
    if OpenDash(Upper(p)).Some? {
      BodyUpdated(p.begin, p.managed, name, route, OpenDash(Upper(p)).value);
    }
  }

  lemma ThroughIs(p: Parts)
    ensures var above := OpenDash(Upper(p));
            Through(p) == if above.Some? && Body([p.begin] + p.managed, above.value) == |[p.begin] + p.managed|
                          then above else OpenDash(p.managed)
  {
    hide OpenDash, Upper, Body;
  }

  lemma AfterIs(p: Parts, name: string, ind: nat)
    ensures var above, rest := OpenDash(Upper(p)), [p.begin] + Without(p.managed, name);
            ThroughAfter(p, name, ind)
            == if above.Some? && above.value < ind && Body(rest, above.value) == |rest| then above
               else OpenAfter(p.managed, name, ind)
  {
    hide OpenDash, Upper, Body, Without, OpenAfter;
  }

  lemma BodyUpdated(first: string, ls: seq<string>, name: string, route: seq<string>, ind: nat)
    requires IsEntry(route, name) && route != []
    ensures Body([first] + Updated(ls, name, route), ind) == |[first] + Updated(ls, name, route)|
       <==> ind < Lead(route[0]) && Body([first] + Without(ls, name), ind) == |[first] + Without(ls, name)|
  {
    hide *;
    BodyOfEntry(route, name, ind);
    if Has(Listed(ls), name) {
      var k := HasAtIndex(ls, name);
      UpdatedIs(ls, name, route);
      WithoutIs(ls, name);
      var a, b := [first] + Above(ls, k), Below(ls, k);
      assert [first] + (Above(ls, k) + (route + b)) == a + (route + b) && [first] + (Above(ls, k) + b) == a + b;
      BodyAppend(a, route + b, ind);
      BodyAppend(route, b, ind);
      BodyAppend(a, b, ind);
      BodySize(route, b, ind);
      BodySize(a, b, ind);
      BodySize(a, route + b, ind);
    } else {
      UpdatedNew(ls, name, route);
      WithoutNone(ls, name);
      assert [first] + (ls + route) == [first] + ls + route;
      BodyAppend([first] + ls, route, ind);
      BodySize([first] + ls, route, ind);
    }
  }

  /** What rack takes for hand-kept after a sync, and so what status lists, said on the config before it. */
  lemma SeenAgain(p: Parts, name: string, route: seq<string>)
    requires Sited(p) && IsEntry(route, name) && Unmarked(route) && route != []
    ensures var q := p.(managed := Updated(p.managed, name, route));
            && HandSeen(q) == SeenAfter(p, name, route)
            && StatusOf(Lines(q)).Ok? && StatusOf(Lines(q)).value.byHand == RouteNames(SeenAfter(p, name, route))
  {
    hide *;
    var q := p.(managed := Updated(p.managed, name, route));
    UpdatedSited(p, name, route);
    SamePlace(p, q.managed);
    LostThrough(q);
    if Middle(p) != [] {
      ThroughUpdated(p, name, route);
    }
    SeenIs(p, q, name, route);
    StatusGood(q);
  }

  lemma SeenIs(p: Parts, q: Parts, name: string, route: seq<string>)
    requires route != [] && q == p.(managed := Updated(p.managed, name, route))
    requires Upper(q) == Upper(p) && Lower(q) == Lower(p) && SeenUpper(q) == SeenUpper(p)
    requires Lost(q) == if Middle(p) == [] then 0
                        else Past(SeenLower(q), Still(ThroughAfter(p, name, Lead(route[0])), Lead(p.end)))
    ensures HandSeen(q) == SeenAfter(p, name, route)
  {
    hide Listed, Stays, Upper, Middle, Lower, SectionLength, Past, Still, Lost, ThroughAfter, SeenUpper, Updated, Lead;
  }

  // ------------------------------------------------------------- a new name --

  /** A route put last may end the list, and never lets it go on. */
  lemma StaysAdded(p: Parts, t: seq<string>)
    requires ModelListAt(t) == None && Stays(Middle(p.(managed := p.managed + t))) && Middle(p) != []
    ensures Stays(Middle(p))
  {
    hide *;
    var m := MiddleAdded(p, t);
    StaysBoth(m + t, [p.end]);
    StaysBoth(m, t);
    StaysBoth(m, [p.end]);
  }

  /** What it leaves open is no deeper than what was. */
  lemma ThroughAdded(p: Parts, name: string, t: seq<string>)
    requires IsEntry(t, name) && t != [] && Upper(p.(managed := p.managed + t)) == Upper(p)
    ensures var now := Through(p.(managed := p.managed + t));
            now.Some? && (Through(p).Some? ==> now.value <= Through(p).value)
  {
    hide *;
    var q := p.(managed := p.managed + t);
    ThroughIs(p);
    ThroughIs(q);
    OpenAdded(p.managed, name, t);
    HeldIs(p.managed, Lead(t[0]));
    if OpenDash(Upper(p)).Some? {
      var u := OpenDash(Upper(p)).value;
      assert [p.begin] + (p.managed + t) == [p.begin] + p.managed + t;
      BodyAppend([p.begin] + p.managed, t, u);
      BodyOfEntry(t, name, u);
      BodySize([p.begin] + p.managed, t, u);
    }
  }

  /** What is seen past a longer body was seen past a shorter one. */
  lemma FewerSeen(ls: seq<string>, was: Option<nat>, now: Option<nat>, name: string)
    requires was.Some? ==> now.Some? && now.value <= was.value
    requires Has(Listed(ls[Past(ls, now)..]), name)
    ensures Has(Listed(ls[Past(ls, was)..]), name)
  {
    hide Items, Body, IndexOf;
    var rest := ls[Past(ls, now)..];
    ListedIs(rest);
    if was.Some? {
      ItemsPast(ls, was.value, now.value);
      LastSeen(ls[Past(ls, was)..], Past(ls, now) - Past(ls, was), rest, name);
    } else if now.Some? {
      ItemsAfterBody(ls, now.value);
      assert ls[0..] == ls;
      LastSeen(ls, Past(ls, now), rest, name);
    }
  }

  lemma LastSeen(ls: seq<string>, n: nat, rest: seq<string>, name: string)
    requires n <= |ls| && Items(ls) == Items(ls[..n]) + Moved(Items(rest), n) && Has(Listed(rest), name)
    ensures Has(Listed(ls), name)
  {
    hide Items, IndexOf, Moved;
    ListingAppend(Items(ls[..n]), Moved(Items(rest), n));
    ListingMoved(Items(rest), n);
    HasSecond(Listed(ls[..n]), Listed(rest), name);
  }

  /** A route added under a name that is not written by hand does not make it so. */
  lemma NewUnseen(p: Parts, name: string, route: seq<string>)
    requires Sited(p) && IsEntry(route, name) && Unmarked(route) && route != [] && !Has(Listed(p.managed), name)
    requires !ByHand(p, name)
    ensures !ByHand(p.(managed := p.managed + route), name)
  {
    hide *;
    var q := p.(managed := p.managed + route);
    UpdatedNew(p.managed, name, route);
    UpdatedSited(p, name, route);
    SamePlace(p, q.managed);
    EntryNoList(route, name);
    ByHandSeen(p, name);
    ByHandSeen(q, name);
    LostThrough(p);
    LostThrough(q);
    SeenParts(p, name);
    SeenParts(q, name);
    if Has(HandSeen(q), name) && !Has(Listed(SeenUpper(p)), name) {
      SeenGoesOn(q);
      if SeenLower(q) == [] {
        NothingSeen(SeenLower(q), Lost(q), name);
        assert false;
      }
      if Middle(p) == [] {
        AlikeWithout(p, q);
      } else {
        StaysAdded(p, route);
        AlikeStays(p, q);
        ThroughAdded(p, name, route);
        StillIs(Through(p), Lead(p.end));
        StillIs(Through(q), Lead(p.end));
        FewerSeen(SeenLower(p), Still(Through(p), Lead(p.end)), Still(Through(q), Lead(p.end)), name);
      }
    }
  }

  lemma SeenParts(p: Parts, name: string)
    ensures Lost(p) <= |SeenLower(p)|
    ensures Has(HandSeen(p), name) <==> Has(Listed(SeenUpper(p)), name) || Has(Listed(SeenLower(p)[Lost(p)..]), name)
  {
    hide Listed, IndexOf, SeenUpper, SeenLower, Lost;
    HasSecond(Listed(SeenUpper(p)), Listed(SeenLower(p)[Lost(p)..]), name);
    LostMeans(p);
  }

  lemma SeenGoesOn(p: Parts)
    ensures SeenLower(p) != [] ==> Stays(Upper(p)) && Stays(Middle(p))
  {
    hide Stays, Upper, Middle, Lower, SectionLength;
  }

  lemma NothingSeen(ls: seq<string>, n: nat, name: string)
    requires ls == [] && n <= |ls|
    ensures !Has(Listed(ls[n..]), name)
  {
    assert ls[n..] == [];
    NothingListed();
  }

  lemma AlikeWithout(p: Parts, q: Parts)
    requires Middle(p) == [] && Middle(q) == []
    ensures EndsAlike(p, q)
  {
    hide Stays, Upper, Middle;
  }

  lemma AlikeStays(p: Parts, q: Parts)
    requires Stays(Middle(p)) && Stays(Middle(q))
    ensures EndsAlike(p, q)
  {
    hide Stays, Upper, Middle;
  }

  // ------------------------------------------------------------- the second --

  /** After a sync that went through, an identical one changes nothing exactly when the route fitted, or had a twin,
      and no item outside the block that is seen then has its name: all of it told on the config before. */
  lemma SyncIdempotent(p: Parts, name: string, served: string, apiBase: string, apiKey: string)
    requires Sited(p) && PlainName(name) && !ByHand(p, name)
    ensures var route := RouteFor(p, name, served, apiBase, apiKey);
            var once := Sync(Lines(p), name, served, apiBase, apiKey);
            && once.Ok? && route != []
            && (Sync(once.value.lines, name, served, apiBase, apiKey) == Ok(Edited(false, once.value.lines))
                <==> && (Fits(p.managed, name, Lead(p.begin)) || Twin(p.managed, name, route))
                     && !Has(SeenAfter(p, name, route), name))
  {
    hide *;
    var route := RouteFor(p, name, served, apiBase, apiKey);
    var q := p.(managed := Updated(p.managed, name, route));
    SyncGood(p, name, served, apiBase, apiKey);
    RouteGood(p, name, served, apiBase, apiKey);
    SyncGood(q, name, served, apiBase, apiKey);
    RouteSame(p, q.managed, name, served, apiBase, apiKey);
    TwiceHolds(p.managed, name, route);
    SeenAgain(p, name, route);
    ByHandSeen(q, name);
    LinesApart(q, Updated(q.managed, name, route));
  }

  lemma TwiceHolds(ls: seq<string>, name: string, route: seq<string>)
    requires IsEntry(route, name) && route != []
    ensures var once := Updated(ls, name, route);
            Updated(once, name, route) == once <==> Fits(ls, name, Lead(route[0])) || Twin(ls, name, route)
  {
    hide Updated, Listed, IsEntry, Lead, Fits, Twin, IndexOf;
    UpdatedChanges(Updated(ls, name, route), name, route);
    UpdatedHolds(ls, name, route);
  }

  lemma LinesApart(p: Parts, managed: seq<string>)
    ensures Edited(managed != p.managed, Lines(p.(managed := managed))) == Edited(false, Lines(p))
       <==> managed == p.managed
  {
    hide Lines;
  }

  /** For a new name, exactly when no managed item is held open to the route. */
  lemma SyncNew(p: Parts, name: string, served: string, apiBase: string, apiKey: string)
    requires Sited(p) && PlainName(name) && !ByHand(p, name) && !Has(Listed(p.managed), name)
    ensures var once := Sync(Lines(p), name, served, apiBase, apiKey);
            && once.Ok?
            && (Sync(once.value.lines, name, served, apiBase, apiKey) == Ok(Edited(false, once.value.lines))
                <==> !HeldOpen(p.managed, Lead(p.begin)))
  {
    hide *;
    var route := RouteFor(p, name, served, apiBase, apiKey);
    RouteGood(p, name, served, apiBase, apiKey);
    SyncIdempotent(p, name, served, apiBase, apiKey);
    NewUnseen(p, name, route);
    UpdatedNew(p.managed, name, route);
    UpdatedSited(p, name, route);
    SeenAgain(p, name, route);
    ByHandSeen(p.(managed := p.managed + route), name);
    NewFits(p.managed, name, route);
  }

  lemma NewFits(ls: seq<string>, name: string, route: seq<string>)
    requires route != [] && !Has(Listed(ls), name)
    ensures Fits(ls, name, Lead(route[0])) <==> !HeldOpen(ls, Lead(route[0]))
    ensures !Twin(ls, name, route)
  {
    hide Listed, IndexOf, HeldOpen, Lead, Above, Below;
  }

  /** For any name it has not come to be written by hand if no item above or below the block has it, or if no item
      takes one in across a marker and the block still ends the list, or lets it go on, as before. */
  lemma StillUnwritten(p: Parts, name: string, route: seq<string>)
    requires Sited(p) && IsEntry(route, name) && Unmarked(route) && route != [] && !ByHand(p, name)
    ensures var q := p.(managed := Updated(p.managed, name, route));
            || !Has(Listed(p.managed), name)
            || !Has(Listed(SeenUpper(p)) + Listed(LowerAfter(p, name, route)), name)
            || (Whole(p) && EndsAlike(p, q))
            ==> !ByHand(q, name)
  {
    hide *;
    var q := p.(managed := Updated(p.managed, name, route));
    UpdatedSited(p, name, route);
    SamePlace(p, q.managed);
    if !Has(Listed(p.managed), name) {
      UpdatedNew(p.managed, name, route);
      NewUnseen(p, name, route);
    } else {
      ByHandSeen(q, name);
      SeenParts(q, name);
      AfterLower(p, q, name, route);
      if Has(HandSeen(q), name) {
        SeenInAll(q, name);
        if Whole(p) && EndsAlike(p, q) {
          ByHandListed(p, name);
          assert false;
        }
      }
    }
  }

  lemma AfterLower(p: Parts, q: Parts, name: string, route: seq<string>)
    requires q == p.(managed := Updated(p.managed, name, route)) && Upper(q) == Upper(p) && Lower(q) == Lower(p)
    requires SeenUpper(q) == SeenUpper(p)
    ensures HandListing(q) == Listed(SeenUpper(p)) + Listed(LowerAfter(p, name, route))
  {
    hide Listed, Stays, Upper, Middle, Lower, SectionLength, SeenUpper, Updated;
  }

  lemma SeenInAll(p: Parts, name: string)
    requires Has(HandSeen(p), name)
    ensures Has(HandListing(p), name)
  {
    hide Listed, IndexOf, SeenUpper, SeenLower, OpenDash, Upper, Middle, Lost, Past;
    var l, dash := SeenLower(p), OpenDash(Upper(p) + Middle(p));
    LostMeans(p);
    SeenParts(p, name);
    HasSecond(Listed(SeenUpper(p)), Listed(l), name);
    if Has(Listed(l[Lost(p)..]), name) {
      FewerSeen(l, None, dash, name);
      PastIs(l, None);
      assert l[0..] == l;
    }
  }
}
