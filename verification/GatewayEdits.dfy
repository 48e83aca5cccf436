/** What sync, status and remove do to a config, whatever its list holds. */
module GatewayEdits {
  import opened Prelude
  import opened Text
  import opened Gateway
  import opened GatewayItems
  import opened GatewayConfig

  // ------------------------------------------------- edits of the block --

  /** Managed lines with this route in the place of the first item of its name, or after the rest. */
  function Updated(ls: seq<string>, name: string, route: seq<string>): seq<string> {
    var k := IndexOf(Listed(ls), name);
    if k < |Listed(ls)| then Above(ls, k) + route + Below(ls, k) else ls + route
  }

  /** Lines without the first item of this name. */
  function Without(ls: seq<string>, name: string): seq<string> {
    var k := IndexOf(Listed(ls), name);
    if k < |Listed(ls)| then Above(ls, k) + Below(ls, k) else ls
  }

  function UpdatedListing(rs: seq<Route>, name: string, route: seq<string>): seq<Route> {
    var k := IndexOf(rs, name);
    if k < |rs| then rs[k := Route(name, route)] else rs + [Route(name, route)]
  }

  function WithoutListing(rs: seq<Route>, name: string): seq<Route> {
    var k := IndexOf(rs, name);
    if k < |rs| then rs[..k] + rs[k + 1..] else rs
  }

  /** There is room for an entry of this name at this indentation: no item before its place is held open to it, and
      the lines after end it. */
  predicate Fits(ls: seq<string>, name: string, ind: nat) {
    var k := IndexOf(Listed(ls), name);
    if k < |Listed(ls)| then !HeldOpen(Above(ls, k), ind) && Closed(Below(ls, k), ind) else !HeldOpen(ls, ind)
  }

  /** The edit of the lines is the edit of the listing exactly when the route fits. */
  lemma UpdatedLists(ls: seq<string>, name: string, route: seq<string>)
    requires IsEntry(route, name)
    ensures Listed(Updated(ls, name, route)) == UpdatedListing(Listed(ls), name, route)
       <==> Fits(ls, name, Lead(route[0]))
  {
    EntryStarts(route, name);
    hide Listed, Lead, Above, Below, IsEntry, HeldOpen, Closed;
    if IndexOf(Listed(ls), name) < |Listed(ls)| {
      ListedReplaced(ls, IndexOf(Listed(ls), name), route, name);
    } else {
      ListedAdded(ls, route, name);
    }
  }

  /** Taking an item out is always the edit of the listing. */
  lemma WithoutLists(ls: seq<string>, name: string)
    ensures Listed(Without(ls, name)) == WithoutListing(Listed(ls), name)
  {
    hide Listed, Above, Below;
    if IndexOf(Listed(ls), name) < |Listed(ls)| {
      ListedDeleted(ls, IndexOf(Listed(ls), name));
    }
  }

  /** Every line of an edited block was there, or is the route's. */
  lemma EditedLines(ls: seq<string>, name: string, route: seq<string>)
    ensures forall x :: x in Updated(ls, name, route) ==> x in ls || x in route
    ensures forall x :: x in Without(ls, name) ==> x in ls
  {
    hide Listed, IndexOf;
  }

  lemma UpdatedFrom(ls: seq<string>, name: string, route: seq<string>)
    ensures Unmarked(ls) && Unmarked(route) ==> Unmarked(Updated(ls, name, route))
    ensures Stays(ls) && Stays(route) ==> Stays(Updated(ls, name, route))
    ensures Unmarked(ls) ==> Unmarked(Without(ls, name))
    ensures Stays(ls) ==> Stays(Without(ls, name))
  {
    hide Listed, Strip, LeavesSection, Updated, Without;
    EditedLines(ls, name, route);
    var u, w := Updated(ls, name, route), Without(ls, name);
    forall k | 0 <= k < |u|
      ensures (exists j :: 0 <= j < |ls| && ls[j] == u[k]) || (exists j :: 0 <= j < |route| && route[j] == u[k])
    {
      assert u[k] in u;
    }
    forall k | 0 <= k < |w|
      ensures exists j :: 0 <= j < |ls| && ls[j] == w[k]
    {
      assert w[k] in w;
    }
  }

  /** The block changes exactly when the route was not already what it should be. */
  lemma UpdatedChanges(ls: seq<string>, name: string, route: seq<string>)
    requires route != []
    ensures var k := IndexOf(Listed(ls), name);
            Updated(ls, name, route) == ls <==> k < |Listed(ls)| && Listed(ls)[k].text == route
  {
    hide Listed, Above, Below, IndexOf;
    var k := IndexOf(Listed(ls), name);
    if k < |Listed(ls)| {
      CutAround(ls, k);
      SameMiddle(Above(ls, k), route, Listed(ls)[k].text, Below(ls, k));
    }
  }

  lemma SameMiddle(a: seq<string>, t: seq<string>, u: seq<string>, b: seq<string>)
    ensures a + t + b == a + (u + b) <==> t == u
  {
    assert a + t + b == a + (t + b);
    if a + t + b == a + (u + b) {
      assert |t| == |u|;
      forall k | 0 <= k < |t|
        ensures t[k] == u[k]
      {
        assert (a + t + b)[|a| + k] == t[k] && (a + (u + b))[|a| + k] == u[k];
      }
    }
  }

  // ------------------------------------------------- what edits leave open --

  /** Lines around an entry that stands closed off leave open what follows it, or the entry itself. */
  lemma OpenAround(a: seq<string>, t: seq<string>, name: string, b: seq<string>)
    requires IsEntry(t, name) && !HeldOpen(a, Lead(t[0])) && Closed(b, Lead(t[0]))
    ensures OpenDash(a + (t + b)) == if AllBlank(b) then Some(Lead(t[0])) else OpenDash(b)
  {
    EntryStarts(t, name);
    EntryOpen(t, name);
    HeldIs(a, Lead(t[0]));
    ClosedBody(b, Lead(t[0]));
    NotThrough(a, t, b);
    hide *;
    OpenJoined(a, t + b);
    OpenJoined(t, b);
    BlankBody(b, Lead(t[0]));
  }

  /** An entry less deep than what is open before it stops that. */
  lemma NotThrough(a: seq<string>, t: seq<string>, b: seq<string>)
    requires t != [] && !Blank(t[0]) && !HeldOpen(a, Lead(t[0]))
    ensures OpenDash(a).Some? ==> Body(t + b, OpenDash(a).value) < |t + b|
  {
    hide OpenDash, Lead, Blank;
    assert (t + b)[0] == t[0];
  }

  lemma BlankBody(b: seq<string>, ind: nat)
    requires Closed(b, ind)
    ensures AllBlank(b) <==> Body(b, ind) == |b|
  {
    hide Closed, AllBlank, Body;
    ClosedBody(b, ind);
    if AllBlank(b) {
      BlanksClosed(b, [], ind);
    }
    assert b[..|b|] == b;
  }

  /** Putting a route somewhere opens nothing that was not, but the route itself. */
  lemma UpdatedOpen(ls: seq<string>, name: string, route: seq<string>, deep: nat)
    requires IsEntry(route, name)
    ensures HeldOpen(Updated(ls, name, route), deep) ==> HeldOpen(ls, deep) || Lead(route[0]) < deep
  {
    EntryStarts(route, name);
    hide *;
    if Has(Listed(ls), name) {
      var k := HasAtIndex(ls, name);
      CutAround(ls, k);
      CutStarts(ls, k);
      UpdatedIs(ls, name, route);
      ReplacedOpen(Above(ls, k), Listed(ls)[k].text, Listed(ls)[k].name, Below(ls, k), route, name, deep);
    } else {
      UpdatedNew(ls, name, route);
      AddedOpen(ls, route, name, deep);
    }
  }

  lemma AddedOpen(ls: seq<string>, t: seq<string>, name: string, deep: nat)
    requires IsEntry(t, name)
    ensures HeldOpen(ls + t, deep) ==> HeldOpen(ls, deep) || Lead(t[0]) < deep
  {
    EntryStarts(t, name);
    EntryOpen(t, name);
    hide OpenDash, Lead, Body, IsEntry;
    OpenJoined(ls, t);
  }

  lemma ReplacedOpen(a: seq<string>, was: seq<string>, named: string, b: seq<string>, t: seq<string>, name: string,
                     deep: nat)
    requires IsEntry(was, named) && !HeldOpen(a, Lead(was[0])) && Closed(b, Lead(was[0])) && IsEntry(t, name)
    ensures HeldOpen(a + (t + b), deep) ==> HeldOpen(a + (was + b), deep) || Lead(t[0]) < deep
  {
    EntryStarts(t, name);
    EntryStarts(was, named);
    EntryOpen(t, name);
    hide *;
    OpenAround(a, was, named, b);
    HeldIs(a, Lead(was[0]));
    HeldIs(a + (t + b), deep);
    HeldIs(a + (was + b), deep);
    OpenJoined(a, t + b);
    OpenJoined(t, b);
    if OpenDash(a).Some? && Body(t + b, OpenDash(a).value) == |t + b| {
      ThroughBlank(t, b, Lead(was[0]), OpenDash(a).value);
    } else if AllBlank(b) {
      ItemsOfBlanks(b);
    }
  }

  /** Lines that end an item and yet are all in the body of one less deep are blank. */
  lemma ThroughBlank(t: seq<string>, b: seq<string>, ind: nat, outer: nat)
    requires Closed(b, ind) && ind <= outer && Body(t + b, outer) == |t + b|
    ensures AllBlank(b)
  {
    hide Closed, Body, AllBlank;
    BodyAppend(t, b, outer);
    ClosesMore(b, ind, outer);
    BlankBody(b, outer);
  }

  /** Taking an item out opens nothing that was not. */
  lemma WithoutOpen(ls: seq<string>, name: string, deep: nat)
    ensures HeldOpen(Without(ls, name), deep) ==> HeldOpen(ls, deep)
  {
    hide Listed, Lead, Above, Below, IsEntry, HeldOpen, Closed, OpenDash;
    var k := IndexOf(Listed(ls), name);
    if k < |Listed(ls)| {
      CutAround(ls, k);
      CutStarts(ls, k);
      DeletedOpen(Above(ls, k), Listed(ls)[k].text, Listed(ls)[k].name, Below(ls, k), deep);
    }
  }

  lemma DeletedOpen(a: seq<string>, t: seq<string>, name: string, b: seq<string>, deep: nat)
    requires IsEntry(t, name) && !HeldOpen(a, Lead(t[0])) && Closed(b, Lead(t[0]))
    ensures HeldOpen(a + b, deep) ==> HeldOpen(a + (t + b), deep)
  {
    EntryStarts(t, name);
    hide *;
    OpenAround(a, t, name, b);
    OpenJoined(a, b);
    HeldIs(a, Lead(t[0]));
    HeldIs(a + b, deep);
    HeldIs(a + (t + b), deep);
    if OpenDash(a).Some? && Body(b, OpenDash(a).value) == |b| {
      ClosesMore(b, Lead(t[0]), OpenDash(a).value);
      BlankBody(b, OpenDash(a).value);
    } else if AllBlank(b) {
      ItemsOfBlanks(b);
    }
  }

  // ----------------------------------------------------------------- sync --

  function RouteFor(p: Parts, name: string, served: string, apiBase: string, apiKey: string): seq<string> {
    Render(p.begin[..Lead(p.begin)], name, served, apiBase, apiKey)
  }

  lemma RouteGood(p: Parts, name: string, served: string, apiBase: string, apiKey: string)
    requires PlainName(name)
    ensures var route := RouteFor(p, name, served, apiBase, apiKey);
            && IsEntry(route, name) && route != [] && Lead(route[0]) == Lead(p.begin) && Unmarked(route)
            && (Indents(p.begin[..Lead(p.begin)]) ==> Stays(route))
  {
    hide IsEntry, Unmarked, Stays, Lead, Indents, Render, PlainName;
    var space := p.begin[..Lead(p.begin)];
    assert AllSpace(space);
    RenderEntry(space, name, served, apiBase, apiKey);
    EntryStarts(Render(space, name, served, apiBase, apiKey), name);
  }

  lemma RouteMarks(p: Parts, name: string, served: string, apiBase: string, apiKey: string)
    ensures var route := RouteFor(p, name, served, apiBase, apiKey);
            route != [] && Unmarked(route) && ModelListAt(route) == None
  {
    hide Unmarked, Lead, Render, ModelListAt;
    assert AllSpace(p.begin[..Lead(p.begin)]);
    RenderMarks(p.begin[..Lead(p.begin)], name, served, apiBase, apiKey);
  }

  lemma ReplacedMiddle(x: seq<string>, m: seq<string>, y: seq<string>, i: nat, j: nat, t: seq<string>)
    requires i <= j <= |m|
    ensures Replaced(x + m + y, |x| + i, |x| + j, t) == x + (m[..i] + t + m[j..]) + y
  {
    var ls := x + m + y;
    assert ls[..|x| + i] == x + m[..i];
    assert ls[|x| + j..] == m[j..] + y;
  }

  /** A config around its managed lines. */
  lemma AroundManaged(p: Parts)
    ensures Lines(p) == (p.front + [p.begin]) + p.managed + ([p.end] + p.back)
    ensures |p.front + [p.begin]| == First(p) + 1
  {
  }

  lemma ReplacedManaged(p: Parts, i: nat, j: nat, t: seq<string>)
    requires i <= j <= |p.managed|
    ensures First(p) + 1 + j <= |Lines(p)|
    ensures Replaced(Lines(p), First(p) + 1 + i, First(p) + 1 + j, t)
         == Lines(p.(managed := p.managed[..i] + t + p.managed[j..]))
  {
    var q := p.(managed := p.managed[..i] + t + p.managed[j..]);
    AroundManaged(p);
    AroundManaged(q);
    ReplacedMiddle(p.front + [p.begin], p.managed, [p.end] + p.back, i, j, t);
  }

  // ------------------------------------------- where the list is after an edit --

  /** An edit of the block neither makes nor takes a model_list line. */
  lemma UpdatedList(ls: seq<string>, name: string, route: seq<string>)
    requires ModelListAt(route) == None
    ensures ModelListAt(Updated(ls, name, route)).Some? <==> ModelListAt(ls).Some?
  {
    hide *;
    if Has(Listed(ls), name) {
      var k := HasAtIndex(ls, name);
      CutAround(ls, k);
      UpdatedIs(ls, name, route);
      EntryNoList(Listed(ls)[k].text, Listed(ls)[k].name);
      ListWithin(Above(ls, k), Listed(ls)[k].text, Below(ls, k));
      ListWithin(Above(ls, k), route, Below(ls, k));
    } else {
      UpdatedNew(ls, name, route);
      ModelListJoined(ls, route);
    }
  }

  lemma WithoutList(ls: seq<string>, name: string)
    ensures ModelListAt(Without(ls, name)).Some? <==> ModelListAt(ls).Some?
  {
    hide *;
    if Has(Listed(ls), name) {
      var k := HasAtIndex(ls, name);
      CutAround(ls, k);
      WithoutIs(ls, name);
      EntryNoList(Listed(ls)[k].text, Listed(ls)[k].name);
      ListWithin(Above(ls, k), Listed(ls)[k].text, Below(ls, k));
      ModelListJoined(Above(ls, k), Below(ls, k));
    } else {
      WithoutNone(ls, name);
    }
  }

  lemma ListWithin(a: seq<string>, t: seq<string>, b: seq<string>)
    requires ModelListAt(t) == None
    ensures ModelListAt(a + (t + b)).Some? <==> ModelListAt(a).Some? || ModelListAt(b).Some?
  {
    hide ModelListAt;
    ModelListJoined(a, t + b);
    ModelListJoined(t, b);
  }

  /** The parts have it on the same side of their markers. */
  predicate SameSide(p: Parts, managed: seq<string>) {
    ModelListAt(managed).Some? <==> ModelListAt(p.managed).Some?
  }

  lemma EditedSited(p: Parts, managed: seq<string>)
    requires Sited(p) && Unmarked(managed) && SameSide(p, managed)
    ensures Sited(p.(managed := managed))
  {
    hide Unmarked, ModelListAt, Inner;
    var q := p.(managed := managed);
    BlockNoList(p);
    BlockNoList(q);
    ModelListJoined(p.front, Inner(p));
    ModelListJoined(p.front + Inner(p), p.back);
    ModelListJoined(q.front, Inner(q));
    ModelListJoined(q.front + Inner(q), q.back);
  }

  /** Two blocks end the list alike, or neither does. */
  predicate EndsAlike(p: Parts, q: Parts) { Stays(Upper(p)) ==> (Stays(Middle(p)) <==> Stays(Middle(q))) }

  /** What is seen around an edited block. */
  lemma SamePlace(p: Parts, managed: seq<string>)
    requires SameSide(p, managed)
    ensures var q := p.(managed := managed);
            && Upper(q) == Upper(p) && Lower(q) == Lower(p) && UpperAt(q) == UpperAt(p) && LowerAt(q) == LowerAt(p)
            && SeenUpper(q) == SeenUpper(p) && (UpperHeld(q) <==> UpperHeld(p))
            && (Middle(q) == [] <==> Middle(p) == [])
            && (EndsAlike(p, q) ==> SeenLower(q) == SeenLower(p) && HandListing(q) == HandListing(p))
  {
    hide Stays, SectionLength, Listed, ModelListAt, LeavesSection, HeldOpen, Lead;
    AtWithin(p.managed);
    AtWithin(managed);
  }

  /** They do where no line of either leaves the list. */
  lemma AlikeWhen(p: Parts, managed: seq<string>)
    requires Stays(p.managed) && Stays(managed)
    ensures EndsAlike(p, p.(managed := managed))
  {
    hide *;
    var q := p.(managed := managed);
    NoListStays(p.managed);
    NoListStays(managed);
    AllOrNone(p);
    AllOrNone(q);
    SameFront(p, managed);
    InnerStays(p);
    InnerStays(q);
    NothingLeaves();
    AlikeIs(p, q);
  }

  lemma MiddleAdded(p: Parts, t: seq<string>) returns (m: seq<string>)
    requires Middle(p) != [] && ModelListAt(t) == None
    ensures Middle(p) == m + [p.end] && Middle(p.(managed := p.managed + t)) == m + t + [p.end]
  {
    hide ModelListAt;
    ModelListJoined(p.managed, t);
    AtWithin(p.managed);
    m := ([p.begin] + p.managed)[MiddleAt(p)..];
    assert Inner(p.(managed := p.managed + t)) == [p.begin] + p.managed + t + [p.end];
  }

  lemma NoListStays(ls: seq<string>)
    requires Stays(ls)
    ensures ModelListAt(ls) == None
  {
    hide ModelListAt, LeavesSection, IsModelList;
    if ModelListAt(ls).Some? {
      ModelListSpec(ls);
      ListLine(ls[ModelListAt(ls).value]);
      assert false;
    }
  }

  lemma AllOrNone(p: Parts)
    requires ModelListAt(p.managed) == None
    ensures Middle(p) == if ModelListAt(p.front).Some? then Inner(p) else []
  {
    hide ModelListAt;
  }

  lemma SameFront(p: Parts, managed: seq<string>)
    ensures var q := p.(managed := managed); q.front == p.front && q.begin == p.begin && q.end == p.end
  {
  }

  lemma AlikeIs(p: Parts, q: Parts)
    ensures EndsAlike(p, q) <==> (Stays(Upper(p)) ==> (Stays(Middle(p)) <==> Stays(Middle(q))))
  {
    hide Stays, Upper, Middle;
  }

  lemma InnerStays(p: Parts)
    ensures Stays(Inner(p)) <==> !LeavesSection(p.begin) && Stays(p.managed) && !LeavesSection(p.end)
  {
    hide LeavesSection;
    StaysBoth([p.begin] + p.managed, [p.end]);
    StaysBoth([p.begin], p.managed);
    assert [p.begin][0] == p.begin && [p.end][0] == p.end;
  }

  lemma PutSited(p: Parts, name: string, route: seq<string>)
    requires Sited(p) && ModelListAt(route) == None && Unmarked(route)
    ensures Sited(p.(managed := Updated(p.managed, name, route))) && SameSide(p, Updated(p.managed, name, route))
  {
    hide *;
    SitedMarked(p);
    SitedUnmarked(p);
    UpdatedFrom(p.managed, name, route);
    UpdatedList(p.managed, name, route);
    SideIs(p, Updated(p.managed, name, route));
    EditedSited(p, Updated(p.managed, name, route));
  }

  lemma UpdatedSited(p: Parts, name: string, route: seq<string>)
    requires Sited(p) && IsEntry(route, name) && Unmarked(route)
    ensures Sited(p.(managed := Updated(p.managed, name, route))) && SameSide(p, Updated(p.managed, name, route))
  {
    hide *;
    EntryNoList(route, name);
    PutSited(p, name, route);
  }

  lemma SitedUnmarked(p: Parts)
    requires Marked(p)
    ensures Unmarked(p.managed)
  {
    hide Unmarked, Strip;
  }

  lemma SideIs(p: Parts, managed: seq<string>)
    ensures SameSide(p, managed) <==> (ModelListAt(managed).Some? <==> ModelListAt(p.managed).Some?)
  {
    hide ModelListAt;
  }

  /** Still no item takes one in across a marker, when the block leaves nothing open that was not, or is deeper. */
  lemma WholeKept(p: Parts, managed: seq<string>)
    requires Whole(p) && Sited(p.(managed := managed)) && SameSide(p, managed)
    requires EndsAlike(p, p.(managed := managed))
    requires HeldOpen(managed, Lead(p.end)) ==>
               HeldOpen(p.managed, Lead(p.end)) && OpenDash(p.managed).value <= OpenDash(managed).value
    ensures Whole(p.(managed := managed))
  {
    hide *;
    var q := p.(managed := managed);
    WholeIs(p);
    WholeIs(q);
    SamePlace(p, managed);
    LostMeans(p);
    LostMeans(q);
    if SeenLower(p) == [] {
      NoneOf(SeenLower(q), Lost(q));
    } else {
      LostBy(p);
      LostBy(q);
      HeldIs(managed, Lead(p.end));
      HeldIs(p.managed, Lead(p.end));
      if Middle(p) != [] && HeldOpen(managed, Lead(p.end)) {
        BodyWithin(SeenLower(p), OpenDash(managed).value, OpenDash(p.managed).value);
        NoneBefore(SeenLower(p)[..Lost(p)], Lost(q));
        CutTwice(SeenLower(p), Lost(p), Lost(q));
      } else {
        NoneOf(SeenLower(q), Lost(q));
      }
    }
  }

  lemma NoneOf(ls: seq<string>, n: nat)
    requires n <= |ls| && (ls == [] || n == 0)
    ensures Items(ls[..n]) == []
  {
    assert ls[..n] == [];
    NoItems();
  }

  lemma CutTwice(ls: seq<string>, n: nat, k: nat)
    requires k <= n <= |ls|
    ensures ls[..n][..k] == ls[..k]
  {
  }

  /** sync keeps it so if the end marker is no deeper than the route. */
  lemma UpdatedWhole(p: Parts, name: string, route: seq<string>)
    requires Whole(p) && IsEntry(route, name) && Unmarked(route) && route != [] && Lead(p.end) <= Lead(route[0])
    requires EndsAlike(p, p.(managed := Updated(p.managed, name, route)))
    ensures Whole(p.(managed := Updated(p.managed, name, route)))
  {
    hide *;
    var managed := Updated(p.managed, name, route);
    WholeIs(p);
    UpdatedSited(p, name, route);
    HeldIs(managed, Lead(p.end));
    HeldIs(p.managed, Lead(p.end));
    if HeldOpen(managed, Lead(p.end)) {
      var y := OpenDash(managed).value;
      HeldIs(managed, y + 1);
      HeldIs(p.managed, y + 1);
      UpdatedOpen(p.managed, name, route, y + 1);
    }
    WholeKept(p, managed);
  }

  /** And remove always does. */
  lemma WithoutWhole(p: Parts, name: string)
    requires Whole(p) && EndsAlike(p, p.(managed := Without(p.managed, name)))
    ensures Whole(p.(managed := Without(p.managed, name)))
  {
    hide *;
    var managed := Without(p.managed, name);
    WholeIs(p);
    WithoutSited(p, name);
    HeldIs(managed, Lead(p.end));
    HeldIs(p.managed, Lead(p.end));
    if HeldOpen(managed, Lead(p.end)) {
      var y := OpenDash(managed).value;
      HeldIs(managed, y + 1);
      HeldIs(p.managed, y + 1);
      WithoutOpen(p.managed, name, y + 1);
    }
    WholeKept(p, managed);
  }

  lemma WithoutSited(p: Parts, name: string)
    requires Sited(p)
    ensures Sited(p.(managed := Without(p.managed, name))) && SameSide(p, Without(p.managed, name))
  {
    hide *;
    SitedMarked(p);
    SitedUnmarked(p);
    UpdatedFrom(p.managed, name, []);
    WithoutList(p.managed, name);
    SideIs(p, Without(p.managed, name));
    EditedSited(p, Without(p.managed, name));
  }

  /** The managed item of a name, in the numbering of the file. */
  lemma ManagedNamed(p: Parts, name: string)
    requires Marked(p)
    ensures First(p) < Last(p) < |Lines(p)|
    ensures var k := IndexOf(Listed(p.managed), name);
            Named(Managed(Lines(p), Span(First(p), Last(p))), name)
            == if k < |Listed(p.managed)|
               then Some(Items(p.managed)[k].(at := Items(p.managed)[k].at + First(p) + 1)) else None
  {
    hide Items, Marked, Managed, Lines, IndexOf, Moved, Named;
    ManagedFound(p);
    var es := Items(p.managed);
    ListingMoved(es, First(p) + 1);
    NamedIs(Moved(es, First(p) + 1), name);
    MovedEntries(es, First(p) + 1);
  }

  /** Some item rack takes for hand-kept has this name. */
  predicate ByHand(p: Parts, name: string) { Named(HandKept(p), name).Some? }

  /** sync, wherever the list ends and however its dashes are indented: a route of the name that is kept by hand is
      refused; else the block, and only that, gets the route, in place of the managed one of its name or as a new
      last one. */
  lemma SyncGood(p: Parts, name: string, served: string, apiBase: string, apiKey: string)
    requires Sited(p)
    ensures var route := RouteFor(p, name, served, apiBase, apiKey);
            var q := p.(managed := Updated(p.managed, name, route));
            && Sync(Lines(p), name, served, apiBase, apiKey)
               == (if ByHand(p, name) then Err(WrittenByHand) else Ok(Edited(q.managed != p.managed, Lines(q))))
            && Sited(q)
  {
    hide Sited, Items, Named, Managed, IsEntry, Lines, IndexOf, RouteFor, Sync, HandKept, Listed, Unmarked, Lead;
    var route := RouteFor(p, name, served, apiBase, apiKey);
    SitedMarked(p);
    RouteMarks(p, name, served, apiBase, apiKey);
    PutSited(p, name, route);
    SyncOpened(p, name, served, apiBase, apiKey);
    if !ByHand(p, name) {
      ManagedNamed(p, name);
      UpdatedChanges(p.managed, name, route);
      var k := IndexOf(Listed(p.managed), name);
      if k < |Listed(p.managed)| {
        ListedEntry(p.managed, k);
        var e := Items(p.managed)[k];
        ReplacedManaged(p, e.at, e.at + |e.text|, route);
      } else {
        ReplacedManaged(p, |p.managed|, |p.managed|, route);
        assert p.managed[..|p.managed|] + route + p.managed[|p.managed|..] == p.managed + route;
      }
    }
  }

  lemma SitedMarked(p: Parts)
    requires Sited(p)
    ensures Marked(p)
  {
    hide Marked;
  }

  lemma ListedEntry(ls: seq<string>, k: nat)
    requires k < |Listed(ls)|
    ensures k < |Items(ls)| && Listed(ls)[k].text == Items(ls)[k].text
    ensures Items(ls)[k].at + |Items(ls)[k].text| <= |ls|
  {
    hide Items;
  }

  /** sync, once the block and the hand-kept items are found. */
  lemma SyncOpened(p: Parts, name: string, served: string, apiBase: string, apiKey: string)
    requires Sited(p)
    ensures First(p) < Last(p) < |Lines(p)|
    ensures var route := RouteFor(p, name, served, apiBase, apiKey);
            var mine := Named(Managed(Lines(p), Span(First(p), Last(p))), name);
            && (mine.Some? ==> mine.value.at + |mine.value.text| <= |Lines(p)|)
            && Sync(Lines(p), name, served, apiBase, apiKey) ==
               if ByHand(p, name) then Err(WrittenByHand)
               else if mine.Some? then
                 if mine.value.text == route then Ok(Edited(false, Lines(p)))
                 else Ok(Edited(true, Replaced(Lines(p), mine.value.at, mine.value.at + |mine.value.text|, route)))
               else Ok(Edited(true, Replaced(Lines(p), Last(p), Last(p), route)))
  {
    hide *;
    SitedMarked(p);
    MarkedBlock(p);
    OutsideSited(p);
    Placed(p);
    EnsureFound(Lines(p));
    ByHandIs(p, name);
    SyncFrom(Lines(p), Span(First(p), Last(p)), HandKept(p), name, served, apiBase, apiKey);
    RouteIs(p, name, served, apiBase, apiKey);
  }

  lemma ByHandIs(p: Parts, name: string)
    ensures ByHand(p, name) <==> Named(HandKept(p), name).Some?
  {
    hide Named, HandKept;
  }

  lemma RouteIs(p: Parts, name: string, served: string, apiBase: string, apiKey: string)
    ensures RouteFor(p, name, served, apiBase, apiKey)
            == Render(p.begin[..Lead(p.begin)], name, served, apiBase, apiKey)
  {
    hide Render, Lead;
  }

  lemma EnsureFound(lines: seq<string>)
    ensures var b := BlockOf(lines);
            b.Ok? && b.value.Some? ==> EnsureBlock(lines) == Ok(Ensured(lines, b.value.value))
  {
    hide BlockOf, ModelListAt, ItemIndent, BEGIN, END;
  }

  lemma SyncFrom(ls: seq<string>, b: Span, hand: seq<Entry>, name: string, served: string, apiBase: string,
                 apiKey: string)
    requires b.first < b.last < |ls| && EnsureBlock(ls) == Ok(Ensured(ls, b)) && Outside(ls, Some(b)) == Ok(hand)
    ensures var route := Render(ls[b.first][..Lead(ls[b.first])], name, served, apiBase, apiKey);
            var mine := Named(Managed(ls, b), name);
            && (mine.Some? ==> mine.value.at + |mine.value.text| <= |ls|)
            && Sync(ls, name, served, apiBase, apiKey) ==
               if Named(hand, name).Some? then Err(WrittenByHand)
               else if mine.Some? then
                 if mine.value.text == route then Ok(Edited(false, ls))
                 else Ok(Edited(true, Replaced(ls, mine.value.at, mine.value.at + |mine.value.text|, route)))
               else Ok(Edited(true, Replaced(ls, b.last, b.last, route)))
  {
    hide EnsureBlock, Outside, Named, Managed, Render, Replaced, Lead, Within;
    var mine := Named(Managed(ls, b), name);
    if mine.Some? {
      NamedWithin(Managed(ls, b), name, |ls|);
    }
  }

  // -------------------------------------------------------- a second sync --

  /** The item before the first of a name takes the route in, and the next item of that name is the route already. */
  predicate Twin(ls: seq<string>, name: string, route: seq<string>)
    requires route != []
  {
    var rs, k := Listed(ls), IndexOf(Listed(ls), name);
    && k < |rs| && HeldOpen(Above(ls, k), Lead(route[0]))
    && Has(rs[k + 1..], name) && rs[k + 1..][IndexOf(rs[k + 1..], name)].text == route
  }

  /** In an updated block, the first item of the name is the route exactly when it fitted, or had a twin. */
  lemma UpdatedHolds(ls: seq<string>, name: string, route: seq<string>)
    requires IsEntry(route, name) && route != []
    ensures var rs := Listed(Updated(ls, name, route));
            (IndexOf(rs, name) < |rs| && rs[IndexOf(rs, name)].text == route)
            <==> Fits(ls, name, Lead(route[0])) || Twin(ls, name, route)
  {
    hide Listed, Lead, IsEntry, IndexOf, HeldOpen, Closed, Above, Below, UpdatedListing;
    UpdatedLists(ls, name, route);
    UpdatedIndex(Listed(ls), name, route);
    var rs, k := Listed(ls), IndexOf(Listed(ls), name);
    if k == |rs| {
      if HeldOpen(ls, Lead(route[0])) {
        SwallowedUnnamed(ls, route, name);
      }
    } else if HeldOpen(Above(ls, k), Lead(route[0])) {
      ReplacedHeld(ls, name, route);
    } else if !Closed(Below(ls, k), Lead(route[0])) {
      ReplacedTakes(ls, name, route);
    }
  }

  lemma {:induction false} UpdatedIndex(rs: seq<Route>, name: string, route: seq<string>)
    ensures var after, k := UpdatedListing(rs, name, route), IndexOf(rs, name);
            k < |after| && IndexOf(after, name) == k && after[k] == Route(name, route)
  {
    var after := UpdatedListing(rs, name, route);
    assert after[IndexOf(rs, name)].name == name;
    assert forall j :: 0 <= j < |rs| ==> after[j].name == rs[j].name;
  }

  /** A route that an item before it takes in is listed under no name. */
  lemma SwallowedUnnamed(ls: seq<string>, route: seq<string>, name: string)
    requires IsEntry(route, name) && route != [] && HeldOpen(ls, Lead(route[0]))
    ensures RouteNames(Listed(ls + route)) == RouteNames(Listed(ls))
    ensures Has(Listed(ls + route), name) <==> Has(Listed(ls), name)
  {
    hide Listed, Lead, IsEntry, HeldOpen, OpenDash, IndexOf;
    var grown := ListedSwallowed(ls, route, name);
    GrownNames(Listed(ls), grown);
    HasNames(Listed(ls), Listed(ls + route), name);
  }

  lemma GrownNames(rs: seq<Route>, grown: Route)
    requires rs != [] && grown.name == rs[|rs| - 1].name
    ensures RouteNames(rs[..|rs| - 1] + [grown]) == RouteNames(rs)
  {
  }

  lemma HasNames(a: seq<Route>, b: seq<Route>, name: string)
    requires RouteNames(a) == RouteNames(b)
    ensures Has(a, name) <==> Has(b, name)
  {
    hide IndexOf;
    assert |a| == |RouteNames(a)| == |RouteNames(b)| == |b|;
    assert forall k :: 0 <= k < |a| ==> a[k].name == RouteNames(a)[k] == RouteNames(b)[k] == b[k].name;
    if Has(a, name) {
      assert b[IndexOf(a, name)].name == name;
    }
    if Has(b, name) {
      assert a[IndexOf(b, name)].name == name;
    }
  }

  /** A replaced item's name is then that of the next one, if any. */
  lemma ReplacedHeld(ls: seq<string>, name: string, route: seq<string>)
    requires IsEntry(route, name) && route != [] && Has(Listed(ls), name)
    requires HeldOpen(Above(ls, IndexOf(Listed(ls), name)), Lead(route[0]))
    ensures var rs, k, after := Listed(ls), IndexOf(Listed(ls), name), Listed(Updated(ls, name, route));
            && k < |rs| && |after| == |rs| - 1 && IndexOf(after, name) == k + IndexOf(rs[k + 1..], name)
            && after[k..] == rs[k + 1..]
  {
    hide *;
    var k := HasAtIndex(ls, name);
    CutAround(ls, k);
    CutStarts(ls, k);
    var a, b, rs := Above(ls, k), Below(ls, k), Listed(ls);
    HeldIs(a, Lead(route[0]));
    HeldIs(a, Lead(rs[k].text[0]));
    var d := OpenDash(a).value;
    EntryJoins(a, route, name, b);
    var grown := ListedGrown(a, route + b);
    EntryDeep(route, name, d);
    BodyAppend(route, b, d);
    PastEntry(route, b, Body(b, d));
    ClosesMore(b, Lead(rs[k].text[0]), d);
    PastBlanks(b, d);
    UpdatedIs(ls, name, route);
    NextNamed(rs, k, name, grown);
  }

  /** Past the blank lines that close an item the listing is the same. */
  lemma PastBlanks(ls: seq<string>, ind: nat)
    requires Closed(ls, ind)
    ensures Listed(ls[Body(ls, ind)..]) == Listed(ls)
  {
    hide *;
    var m := Body(ls, ind);
    ClosedBody(ls, ind);
    ItemsAfterBlanks(ls[..m], ls[m..]);
    assert ls[..m] + ls[m..] == ls;
    ListedIs(ls);
    ListedIs(ls[m..]);
    ListingMoved(Items(ls[m..]), m);
  }

  lemma NextNamed(rs: seq<Route>, k: nat, name: string, grown: Route)
    requires 0 < k < |rs| && (forall j :: 0 <= j < k ==> rs[j].name != name)
    requires grown.name == rs[..k][|rs[..k]| - 1].name
    ensures var after := rs[..k][..|rs[..k]| - 1] + [grown] + rs[k + 1..];
            && |after| == |rs| - 1 && after[k..] == rs[k + 1..]
            && IndexOf(after, name) == k + IndexOf(rs[k + 1..], name)
  {
    hide IndexOf;
    var front := rs[..k][..|rs[..k]| - 1] + [grown];
    assert forall j :: 0 <= j < |front| ==> front[j].name == rs[j].name;
    IndexAppend(front, rs[k + 1..], name);
  }

  lemma HasAtIndex(ls: seq<string>, name: string) returns (k: nat)
    requires Has(Listed(ls), name)
    ensures k == IndexOf(Listed(ls), name) && k < |Listed(ls)| && Listed(ls)[k].name == name
    ensures forall j :: 0 <= j < k ==> Listed(ls)[j].name != name
  {
    k := IndexOf(Listed(ls), name);
  }

  lemma PastEntry(t: seq<string>, b: seq<string>, m: nat)
    requires m <= |b|
    ensures (t + b)[|t| + m..] == b[m..]
  {
  }

  lemma UpdatedIs(ls: seq<string>, name: string, route: seq<string>)
    requires Has(Listed(ls), name)
    ensures IndexOf(Listed(ls), name) < |Listed(ls)|
    ensures var k := IndexOf(Listed(ls), name); Updated(ls, name, route) == Above(ls, k) + (route + Below(ls, k))
  {
    hide Listed, IndexOf, Above, Below;
    var k := IndexOf(Listed(ls), name);
    assert Above(ls, k) + route + Below(ls, k) == Above(ls, k) + (route + Below(ls, k));
  }

  lemma WithoutIs(ls: seq<string>, name: string)
    requires Has(Listed(ls), name)
    ensures IndexOf(Listed(ls), name) < |Listed(ls)|
    ensures var k := IndexOf(Listed(ls), name); Without(ls, name) == Above(ls, k) + Below(ls, k)
  {
    hide Listed, IndexOf, Above, Below;
  }

  lemma WithoutNone(ls: seq<string>, name: string)
    requires !Has(Listed(ls), name)
    ensures Without(ls, name) == ls
  {
    hide Listed, IndexOf;
  }

  lemma ReplacedTakes(ls: seq<string>, name: string, route: seq<string>)
    requires IsEntry(route, name) && route != [] && Has(Listed(ls), name)
    requires var k := IndexOf(Listed(ls), name);
             !HeldOpen(Above(ls, k), Lead(route[0])) && !Closed(Below(ls, k), Lead(route[0]))
    ensures var rs := Listed(Updated(ls, name, route));
            IndexOf(rs, name) < |rs| && rs[IndexOf(rs, name)].text != route
  {
    hide *;
    var k := HasAtIndex(ls, name);
    CutAround(ls, k);
    UpdatedIs(ls, name, route);
    EntryTakes(Above(ls, k), route, name, Below(ls, k));
    FirstNamed(Listed(Updated(ls, name, route)), Listed(ls), k, name);
  }

  lemma FirstNamed(after: seq<Route>, rs: seq<Route>, k: nat, name: string)
    requires k < |rs| && k < |after| && after[k].name == name && after[..|rs[..k]|] == rs[..k]
    requires forall j :: 0 <= j < k ==> rs[j].name != name
    ensures IndexOf(after, name) == k
  {
    hide IndexOf;
    assert forall j :: 0 <= j < k ==> after[j] == after[..k][j] == rs[..k][j];
  }

  lemma RouteSame(p: Parts, managed: seq<string>, name: string, served: string, apiBase: string, apiKey: string)
    ensures RouteFor(p.(managed := managed), name, served, apiBase, apiKey)
            == RouteFor(p, name, served, apiBase, apiKey)
  {
  }

  /** Some item rack takes for hand-kept has this name exactly when one it sees outside the block does. */
  lemma ByHandSeen(p: Parts, name: string)
    requires Sited(p)
    ensures ByHand(p, name) <==> Has(HandSeen(p), name)
  {
    hide Sited, HandSeen, HandKept, Named, IndexOf;
    HandNames(p);
    NamesListing(HandKept(p));
    HasNames(Listing(HandKept(p)), HandSeen(p), name);
    NamedIs(HandKept(p), name);
  }

  lemma ByHandListed(p: Parts, name: string)
    requires Whole(p)
    ensures ByHand(p, name) <==> Has(HandListing(p), name)
    ensures Listing(HandKept(p)) == HandListing(p)
  {
    hide Whole, HandListing, Outside, Named, IndexOf, Lines, First, Last, Found;
    WholeIs(p);
    OutsideFound(p);
    HandKeptIs(p);
    FoundListing(p);
    NamedIs(HandKept(p), name);
    assert |Listing(HandKept(p))| == |HandKept(p)|;
  }

  // --------------------------------------------------------------- status --

  lemma NamesListing(es: seq<Entry>)
    ensures Names(es) == RouteNames(Listing(es))
  {
  }

  /** status names the items between the markers, and those rack takes for hand-kept. */
  lemma StatusGood(p: Parts)
    requires Sited(p)
    ensures StatusOf(Lines(p)) == Ok(Status(RouteNames(Listed(p.managed)), RouteNames(HandSeen(p)), true))
    ensures Whole(p) ==> RouteNames(HandSeen(p)) == RouteNames(HandListing(p))
  {
    hide *;
    SitedMarked(p);
    MarkedBlock(p);
    OutsideSited(p);
    ManagedFound(p);
    StatusFrom(Lines(p), Span(First(p), Last(p)), HandKept(p));
    NamesListing(Moved(Items(p.managed), First(p) + 1));
    ListingMoved(Items(p.managed), First(p) + 1);
    ListedIs(p.managed);
    HandNames(p);
    if Whole(p) {
      ByHandListed(p, "");
      NamesListing(HandKept(p));
    }
  }

  lemma StatusFrom(ls: seq<string>, b: Span, hand: seq<Entry>)
    requires b.first < b.last < |ls| && BlockOf(ls) == Ok(Some(b)) && Outside(ls, Some(b)) == Ok(hand)
    ensures StatusOf(ls) == Ok(Status(Names(Managed(ls, b)), Names(hand), true))
  {
    hide BlockOf, Outside, Names, Managed;
  }

  /** A successful sync leaves every line outside the block as it was; every other managed item is listed with its own
      lines, and the route under its name, exactly when the route fits; status lists a new name exactly then; and it
      lists the hand-kept names as before. */
  lemma SyncFramed(p: Parts, name: string, served: string, apiBase: string, apiKey: string)
    requires Sited(p) && PlainName(name) && !ByHand(p, name)
    ensures var route := RouteFor(p, name, served, apiBase, apiKey);
            var synced := Sync(Lines(p), name, served, apiBase, apiKey);
            var q := p.(managed := Updated(p.managed, name, route));
            && synced == Ok(Edited(q.managed != p.managed, Lines(q))) && Sited(q)
            && Lines(q)[..First(p) + 1] == Lines(p)[..First(p) + 1]
            && Lines(q)[Last(q)..] == Lines(p)[Last(p)..]
            && (Listed(q.managed) == UpdatedListing(Listed(p.managed), name, route)
                <==> Fits(p.managed, name, Lead(p.begin)))
            && StatusOf(Lines(q)).Ok?
            && (Fits(p.managed, name, Lead(p.begin)) ==> name in StatusOf(Lines(q)).value.managed)
            && (!Has(Listed(p.managed), name) && name in StatusOf(Lines(q)).value.managed
                ==> Fits(p.managed, name, Lead(p.begin)))
            && (Whole(p) && Lead(p.end) <= Lead(p.begin) && EndsAlike(p, q)
                ==> Whole(q) && StatusOf(Lines(q)).value.byHand == RouteNames(HandListing(p)))
            && (Stays(p.managed) && Indents(p.begin[..Lead(p.begin)]) ==> EndsAlike(p, q))
  {
    hide *;
    var route := RouteFor(p, name, served, apiBase, apiKey);
    var q := p.(managed := Updated(p.managed, name, route));
    SyncGood(p, name, served, apiBase, apiKey);
    RouteGood(p, name, served, apiBase, apiKey);
    FramedLines(p, q.managed);
    UpdatedLists(p.managed, name, route);
    StatusGood(q);
    UpdatedNames(p.managed, name, route);
    UpdatedFrom(p.managed, name, route);
    if Stays(p.managed) && Indents(p.begin[..Lead(p.begin)]) {
      AlikeWhen(p, q.managed);
    }
    if Whole(p) && Lead(p.end) <= Lead(p.begin) && EndsAlike(p, q) {
      UpdatedWhole(p, name, route);
      UpdatedSited(p, name, route);
      SamePlace(p, q.managed);
    }
  }

  lemma FramedLines(p: Parts, managed: seq<string>)
    ensures var q := p.(managed := managed);
            && First(p) + 1 <= |Lines(p)| && First(p) + 1 <= |Lines(q)| && Last(p) <= |Lines(p)|
               && Last(q) <= |Lines(q)|
            && Lines(q)[..First(p) + 1] == Lines(p)[..First(p) + 1] && Lines(q)[Last(q)..] == Lines(p)[Last(p)..]
  {
    AroundManaged(p);
    AroundManaged(p.(managed := managed));
  }

  lemma UpdatedNames(ls: seq<string>, name: string, route: seq<string>)
    requires IsEntry(route, name) && route != []
    ensures Fits(ls, name, Lead(route[0])) ==> name in RouteNames(Listed(Updated(ls, name, route)))
    ensures !Has(Listed(ls), name) && name in RouteNames(Listed(Updated(ls, name, route)))
            ==> Fits(ls, name, Lead(route[0]))
  {
    hide Listed, Lead, IsEntry, IndexOf, HeldOpen, Closed, Above, Below, UpdatedListing;
    UpdatedLists(ls, name, route);
    UpdatedIndex(Listed(ls), name, route);
    if Fits(ls, name, Lead(route[0])) {
      var after := UpdatedListing(Listed(ls), name, route);
      assert RouteNames(after)[IndexOf(Listed(ls), name)] == name;
    } else if !Has(Listed(ls), name) {
      SwallowedUnnamed(ls, route, name);
      NotNamed(Listed(ls), name);
    }
  }

  lemma NotNamed(rs: seq<Route>, name: string)
    requires !Has(rs, name)
    ensures name !in RouteNames(rs)
  {
    hide IndexOf;
  }

  // ------------------------------------------------- when the route fits --

  /** It always does where the managed dashes are all at the markers' indentation. */
  lemma EvenFits(ls: seq<string>, name: string, ind: nat)
    requires Even(Listed(ls), ind)
    ensures Fits(ls, name, ind) && !HeldOpen(ls, ind)
  {
    hide Listed, Lead, HeldOpen, Closed, Above, Below;
    EvenCloses(ls, ind);
    var k := IndexOf(Listed(ls), name);
    if k < |Listed(ls)| {
      CutAround(ls, k);
      EvenPart(Listed(ls), 0, k, ind);
      assert Listed(ls)[0..k] == Listed(ls)[..k];
      EvenCloses(Above(ls, k), ind);
    }
  }

  lemma EvenPart(rs: seq<Route>, lo: nat, hi: nat, ind: nat)
    requires lo <= hi <= |rs| && Even(rs, ind)
    ensures Even(rs[lo..hi], ind)
  {
  }

  lemma EvenCloses(ls: seq<string>, ind: nat)
    requires Even(Listed(ls), ind)
    ensures !HeldOpen(ls, ind)
  {
    hide Items, Lead, OpenDash;
    OpenMeans(ls);
    if OpenDash(ls).Some? {
      assert Listed(ls)[|Items(ls)| - 1].text == Items(ls)[|Items(ls)| - 1].text;
    }
  }

  // --------------------------------------------------------------- remove --

  /** remove takes out the first managed item of a name, or changes nothing, and the listing follows, whatever the
      indentation. */
  lemma RemoveGood(p: Parts, name: string)
    requires Marked(p)
    ensures Remove(Lines(p), name)
         == Ok(Edited(Has(Listed(p.managed), name), Lines(p.(managed := Without(p.managed, name)))))
    ensures Listed(Without(p.managed, name)) == WithoutListing(Listed(p.managed), name)
    ensures Sited(p) ==> Sited(p.(managed := Without(p.managed, name)))
    ensures Whole(p) && EndsAlike(p, p.(managed := Without(p.managed, name))) ==>
            Whole(p.(managed := Without(p.managed, name)))
  {
    hide Items, Named, BlockOf, Managed, Lines, IndexOf, Sited, Whole, EndsAlike, Marked, HandKept;
    MarkedBlock(p);
    ManagedNamed(p, name);
    WithoutLists(p.managed, name);
    if Sited(p) {
      WithoutSited(p, name);
    }
    if Whole(p) && EndsAlike(p, p.(managed := Without(p.managed, name))) {
      WithoutWhole(p, name);
    }
    var k := IndexOf(Listed(p.managed), name);
    if k < |Listed(p.managed)| {
      var e := Items(p.managed)[k];
      ReplacedManaged(p, e.at, e.at + |e.text|, []);
      assert Above(p.managed, k) + [] + Below(p.managed, k) == Above(p.managed, k) + Below(p.managed, k);
    }
  }

  /** For a name that was neither managed nor by hand, remove undoes sync exactly when no managed item was held open to
      the new route. */
  lemma RemoveUndoesSync(p: Parts, name: string, served: string, apiBase: string, apiKey: string)
    requires Sited(p) && PlainName(name) && !ByHand(p, name) && !Has(Listed(p.managed), name)
    ensures var synced := Sync(Lines(p), name, served, apiBase, apiKey);
            && synced.Ok?
            && (Remove(synced.value.lines, name) == Ok(Edited(true, Lines(p))) <==> !HeldOpen(p.managed, Lead(p.begin)))
  {
    hide *;
    var route := RouteFor(p, name, served, apiBase, apiKey);
    var q := p.(managed := p.managed + route);
    SyncGood(p, name, served, apiBase, apiKey);
    UpdatedNew(p.managed, name, route);
    RouteGood(p, name, served, apiBase, apiKey);
    SitedMarked(q);
    RemoveGood(q, name);
    if HeldOpen(p.managed, Lead(p.begin)) {
      SwallowedUnnamed(p.managed, route, name);
    } else {
      AddedIsLast(p.managed, name, route);
    }
  }

  lemma UpdatedNew(ls: seq<string>, name: string, route: seq<string>)
    requires !Has(Listed(ls), name)
    ensures Updated(ls, name, route) == ls + route
  {
    hide Listed, IndexOf;
  }

  /** A route added last is what taking its name out takes out. */
  lemma AddedIsLast(ls: seq<string>, name: string, route: seq<string>)
    requires IsEntry(route, name) && route != [] && !HeldOpen(ls, Lead(route[0])) && !Has(Listed(ls), name)
    ensures Without(ls + route, name) == ls && Has(Listed(ls + route), name)
  {
    hide Items, Lead, ItemName, Closed, Moved, Body, Core, OpenDash, HeldOpen;
    var all, k := ls + route, |Listed(ls)|;
    EntryJoins(ls, route, name, []);
    assert route + [] == route;
    ItemsSpliced(ls, route);
    EntryItem(route, name);
    MovedAt([Entry(name, 0, route)], |ls|, 0);
    MovedLength([Entry(name, 0, route)], |ls|);
    assert Items(all)[k] == Entry(name, |ls|, route);
    ListedAdded(ls, route, name);
    IndexAppend(Listed(ls), [Route(name, route)], name);
    assert Above(all, k) == ls && Below(all, k) == [];
  }
}
