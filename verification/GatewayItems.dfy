/** How the list items of some lines change when lines are cut, joined and spliced. */
module GatewayItems {
  import opened Prelude
  import opened Text
  import opened Gateway

  /** A list item without its place. */
  datatype Route = Route(name: string, text: seq<string>)

  function Listing(es: seq<Entry>): seq<Route> {
    seq(|es|, k requires 0 <= k < |es| => Route(es[k].name, es[k].text))
  }

  function Listed(ls: seq<string>): seq<Route> { Listing(Items(ls)) }

  lemma ListingAppend(a: seq<Entry>, b: seq<Entry>)
    ensures Listing(a + b) == Listing(a) + Listing(b)
  {
  }

  lemma ListingMoved(es: seq<Entry>, d: nat)
    ensures Listing(Moved(es, d)) == Listing(es)
  {
  }

  /** Every dash is indented exactly ind. */
  predicate Even(rs: seq<Route>, ind: nat) {
    forall k :: 0 <= k < |rs| ==> rs[k].text != [] && Lead(rs[k].text[0]) == ind
  }

  /** The indentation of the last item's dash, if no line after it has ended that item yet. */
  function OpenDash(ls: seq<string>): Option<nat>
    decreases |ls|
  {
    if ls == [] then None
    else if ItemName(ls[0]) == None then OpenDash(ls[1..])
    else
      var j := 1 + Body(ls[1..], Lead(ls[0]));
      if j == |ls| then Some(Lead(ls[0])) else OpenDash(ls[j..])
  }

  /** The last item is still open, and takes in what is indented so deep. */
  predicate HeldOpen(ls: seq<string>, deep: nat) { OpenDash(ls).Some? && OpenDash(ls).value < deep }

  /** How many of these lines an item takes in that is open before them, with a dash indented so. */
  function Past(ls: seq<string>, dash: Option<nat>): (n: nat)
    ensures n <= |ls|
  {
    if dash.Some? then Body(ls, dash.value) else 0
  }

  /** What comes after a ends the item that a leaves open, if it leaves one. */
  predicate Joins(a: seq<string>, b: seq<string>) { OpenDash(a).Some? ==> Closed(b, OpenDash(a).value) }

  predicate AllBlank(ls: seq<string>) {
    forall k :: 0 <= k < |ls| ==> Blank(ls[k])
  }

  /** The first of these lines that is not blank is indented no deeper than ind: it ends any item it follows. */
  predicate Closed(ls: seq<string>, ind: nat) {
    ls == [] || (if Blank(ls[0]) then Closed(ls[1..], ind) else Lead(ls[0]) <= ind)
  }

  /** A list item's own lines. */
  predicate IsEntry(t: seq<string>, name: string) {
    && t != [] && ItemName(t[0]) == Some(name) && !Blank(t[|t| - 1])
    && forall k :: 0 < k < |t| ==> Blank(t[k]) || Lead(t[k]) > Lead(t[0])
  }

  // ----------------------------------------------------------- body, core --

  lemma {:induction false} BodyAppend(a: seq<string>, b: seq<string>, ind: nat)
    ensures Body(a + b, ind) == if Body(a, ind) == |a| then |a| + Body(b, ind) else Body(a, ind)
  {
    if a == [] {
      assert a + b == b;
    } else {
      assert (a + b)[1..] == a[1..] + b;
      BodyAppend(a[1..], b, ind);
    }
  }

  /** What closes an item adds only blank lines to its body. */
  lemma {:induction false} ClosedBody(ls: seq<string>, ind: nat)
    ensures Closed(ls, ind) <==> AllBlank(ls[..Body(ls, ind)])
  {
    if ls != [] {
      ClosedBody(ls[1..], ind);
      if Body(ls, ind) > 0 {
        var n := Body(ls[1..], ind);
        assert ls[..n + 1] == [ls[0]] + ls[1..][..n];
        OneBlank(ls[0], ls[1..][..n]);
      }
    }
  }

  lemma OneBlank(ln: string, rest: seq<string>)
    ensures AllBlank([ln] + rest) <==> Blank(ln) && AllBlank(rest)
  {
    hide Blank;
    var all := [ln] + rest;
    assert all[0] == ln && forall k :: 0 <= k < |rest| ==> all[k + 1] == rest[k];
  }

  lemma {:induction false} BodyCut(ls: seq<string>, n: nat, ind: nat)
    requires Body(ls, ind) <= n <= |ls|
    ensures Body(ls[..n], ind) == Body(ls, ind)
  {
    if ls != [] && n > 0 && Body(ls, ind) > 0 {
      assert ls[..n][1..] == ls[1..][..n - 1];
      BodyCut(ls[1..], n - 1, ind);
    }
  }

  lemma {:induction false} BodyLines(ls: seq<string>, ind: nat)
    ensures forall k :: 0 <= k < Body(ls, ind) ==> Blank(ls[k]) || Lead(ls[k]) > ind
    ensures Body(ls, ind) < |ls| ==> !Blank(ls[Body(ls, ind)]) && Lead(ls[Body(ls, ind)]) <= ind
  {
    if ls != [] && (Blank(ls[0]) || Lead(ls[0]) > ind) {
      BodyLines(ls[1..], ind);
      assert forall k :: 0 < k < |ls| ==> ls[k] == ls[1..][k - 1];
    }
  }

  lemma {:induction false} CoreLines(ls: seq<string>)
    ensures Core(ls) > 0 ==> !Blank(ls[Core(ls) - 1])
    ensures AllBlank(ls[Core(ls)..])
  {
    if ls != [] && Blank(ls[|ls| - 1]) {
      var init := ls[..|ls| - 1];
      CoreLines(init);
      assert ls[Core(ls)..] == init[Core(ls)..] + [ls[|ls| - 1]];
    }
  }

  lemma {:induction false} CoreBlanks(ls: seq<string>, blanks: seq<string>)
    requires AllBlank(blanks)
    ensures Core(ls + blanks) == Core(ls)
  {
    if blanks == [] {
      assert ls + blanks == ls;
    } else {
      assert (ls + blanks)[..|ls + blanks| - 1] == ls + blanks[..|blanks| - 1];
      CoreBlanks(ls, blanks[..|blanks| - 1]);
    }
  }

  lemma CoreGrows(a: seq<string>, b: seq<string>)
    requires !AllBlank(b)
    ensures Core(a + b) > |a|
  {
    hide Core, Blank;
    CoreLines(a + b);
    if Core(a + b) <= |a| {
      forall k | 0 <= k < |b|
        ensures Blank(b[k])
      {
        assert b[k] == (a + b)[Core(a + b)..][|a| - Core(a + b) + k];
      }
    }
  }

  // ---------------------------------------------------------------- items --

  lemma BlankNoItem(ln: string)
    requires Blank(ln)
    ensures ItemName(ln) == None
  {
  }

  lemma {:induction false} ItemsOfBlanks(blanks: seq<string>)
    requires AllBlank(blanks)
    ensures Items(blanks) == [] && OpenDash(blanks) == None
  {
    hide ItemName;
    if blanks == [] {
      NoItems();
    } else {
      BlankNoItem(blanks[0]);
      ItemsOfBlanks(blanks[1..]);
    }
  }

  lemma {:induction false} ItemsAfterBlanks(blanks: seq<string>, b: seq<string>)
    requires AllBlank(blanks)
    ensures Items(blanks + b) == Moved(Items(b), |blanks|)
  {
    hide Items, ItemName, Moved;
    if blanks == [] {
      assert blanks + b == b;
      MovedSame(Items(b), 0);
    } else {
      ItemsStep(blanks + b);
      BlankNoItem(blanks[0]);
      assert (blanks + b)[1..] == blanks[1..] + b;
      ItemsAfterBlanks(blanks[1..], b);
      MovedTwice(Items(b), |blanks| - 1, 1);
    }
  }

  lemma OpenStep(ls: seq<string>)
    requires ls != []
    ensures ItemName(ls[0]) == None ==> OpenDash(ls) == OpenDash(ls[1..])
    ensures ItemName(ls[0]).Some? ==>
              var j := 1 + Body(ls[1..], Lead(ls[0]));
              OpenDash(ls) == if j == |ls| then Some(Lead(ls[0])) else OpenDash(ls[j..])
  {
    hide ItemName, Lead, Body;
  }

  /** The first item of some lines, with more lines after them. */
  lemma FirstAppend(a: seq<string>, b: seq<string>)
    requires a != [] && ItemName(a[0]).Some?
    ensures var j, k := 1 + Body(a[1..], Lead(a[0])), 1 + Body((a + b)[1..], Lead(a[0]));
            if j < |a| then
              k == j && (a + b)[..k] == a[..j] && (a + b)[k..] == a[j..] + b
            else
              var m := Body(b, Lead(a[0]));
              k == |a| + m && (a + b)[..k] == a + b[..m] && (a + b)[k..] == b[m..]
  {
    hide Body, Lead, ItemName;
    assert (a + b)[1..] == a[1..] + b;
    BodyAppend(a[1..], b, Lead(a[0]));
  }

  /** Lines after some whose last item has ended add their own items. */
  lemma {:induction false} ItemsApart(a: seq<string>, b: seq<string>)
    requires OpenDash(a) == None
    ensures Items(a + b) == Items(a) + Moved(Items(b), |a|)
    decreases |a|
  {
    hide Items, Body, Core, Lead, ItemName, Moved, OpenDash;
    if a == [] {
      NoItems();
      assert a + b == b;
      MovedSame(Items(b), 0);
      assert [] + Items(b) == Items(b);
    } else {
      ItemsStep(a);
      OpenStep(a);
      ItemsStep(a + b);
      assert (a + b)[0] == a[0];
      if ItemName(a[0]) == None {
        assert (a + b)[1..] == a[1..] + b;
        ItemsApart(a[1..], b);
        MovedAppend(Items(a[1..]), Moved(Items(b), |a| - 1), 1);
        MovedTwice(Items(b), |a| - 1, 1);
      } else {
        var j := 1 + Body(a[1..], Lead(a[0]));
        FirstAppend(a, b);
        assert (a + b)[..Core(a[..j])] == a[..Core(a[..j])];
        ItemsApart(a[j..], b);
        MovedAppend(Items(a[j..]), Moved(Items(b), |a| - j), j);
        MovedTwice(Items(b), |a| - j, j);
      }
    }
  }

  /** e is the last item of a as it is once b comes after it. */
  ghost predicate Grown(a: seq<string>, b: seq<string>, e: Entry) {
    && OpenDash(a).Some? && Items(a) != []
    && var n, m := |Items(a)| - 1, Body(b, OpenDash(a).value);
       && Items(a + b) == Items(a)[..n] + [e] + Moved(Items(b[m..]), |a| + m)
       && e.name == Items(a)[n].name && e.at == Items(a)[n].at
       && (if Joins(a, b) then e == Items(a)[n] else |e.text| > |Items(a)[n].text|)
  }

  /** Lines after some whose last item is open first add to that item: what is deeper than its dash, up to the
      last line that is not blank. */
  lemma {:induction false} ItemsGrown(a: seq<string>, b: seq<string>) returns (e: Entry)
    requires OpenDash(a).Some?
    ensures Grown(a, b, e)
    decreases |a|
  {
    hide Items, Body, Core, Lead, ItemName, OpenDash, Grown;
    if a == [] {
      OpenNothing();
      assert false;
    } else {
      OpenStep(a);
      if ItemName(a[0]) == None {
        var inner := ItemsGrown(a[1..], b);
        e := GrownStray(a, b, inner);
      } else {
        var j := 1 + Body(a[1..], Lead(a[0]));
        if j == |a| {
          e := LastGrown(a, b);
        } else {
          var inner := ItemsGrown(a[j..], b);
          e := GrownItem(a, b, inner);
        }
      }
    }
  }

  lemma GrownStray(a: seq<string>, b: seq<string>, inner: Entry) returns (e: Entry)
    requires a != [] && ItemName(a[0]) == None && OpenDash(a).Some? && Grown(a[1..], b, inner)
    ensures Grown(a, b, e)
  {
    hide Items, Body, Core, Lead, ItemName, Moved, OpenDash, Closed;
    ItemsStep(a);
    OpenStep(a);
    ItemsStep(a + b);
    var m := Body(b, OpenDash(a).value);
    assert (a + b)[0] == a[0] && (a + b)[1..] == a[1..] + b;
    e := inner.(at := inner.at + 1);
    GrownMoved(Items(a[1..]), inner, Items(b[m..]), |a| - 1 + m, 1);
  }

  lemma GrownItem(a: seq<string>, b: seq<string>, inner: Entry) returns (e: Entry)
    requires a != [] && ItemName(a[0]).Some? && OpenDash(a).Some?
    requires 1 + Body(a[1..], Lead(a[0])) < |a| && Grown(a[1 + Body(a[1..], Lead(a[0]))..], b, inner)
    ensures Grown(a, b, e)
  {
    hide Items, Body, Core, Lead, ItemName, Moved, OpenDash, Closed;
    ItemsStep(a);
    OpenStep(a);
    ItemsStep(a + b);
    FirstAppend(a, b);
    assert (a + b)[0] == a[0];
    var j, m := 1 + Body(a[1..], Lead(a[0])), Body(b, OpenDash(a).value);
    var first := Entry(ItemName(a[0]).value, 0, a[..Core(a[..j])]);
    assert (a + b)[..Core(a[..j])] == first.text;
    e := inner.(at := inner.at + j);
    GrownMoved(Items(a[j..]), inner, Items(b[m..]), |a| - j + m, j);
    GrownAfter(first, Moved(Items(a[j..]), j), e, Moved(Items(b[m..]), |a| + m));
  }

  lemma OpenNothing()
    ensures OpenDash([]) == None
  {
  }

  lemma LastGrown(a: seq<string>, b: seq<string>) returns (e: Entry)
    requires a != [] && ItemName(a[0]).Some? && 1 + Body(a[1..], Lead(a[0])) == |a|
    ensures Grown(a, b, e)
  {
    hide Items, Body, Core, Lead, ItemName, Moved, OpenDash, Closed;
    var m := Body(b, Lead(a[0]));
    OpenStep(a);
    ItemsStep(a);
    ItemsStep(a + b);
    FirstAppend(a, b);
    assert a[..|a|] == a && a[|a|..] == [];
    NoItems();
    MovedNone(|a|);
    e := Entry(ItemName(a[0]).value, 0, (a + b)[..Core(a + b[..m])]);
    ClosedBody(b, Lead(a[0]));
    if Joins(a, b) {
      CoreBlanks(a, b[..m]);
      assert (a + b)[..Core(a)] == a[..Core(a)];
    } else {
      CoreGrows(a, b[..m]);
    }
  }

  lemma GrownIs(a: seq<string>, b: seq<string>, e: Entry)
    requires Grown(a, b, e)
    ensures OpenDash(a).Some? && Items(a) != []
    ensures var n, m := |Items(a)| - 1, Body(b, OpenDash(a).value);
            && Items(a + b) == Items(a)[..n] + [e] + Moved(Items(b[m..]), |a| + m)
            && e.name == Items(a)[n].name && e.at == Items(a)[n].at
            && (if Joins(a, b) then e == Items(a)[n] else |e.text| > |Items(a)[n].text|)
  {
    hide Items, OpenDash, Body, Moved, Joins;
  }

  lemma GrownMoved(es: seq<Entry>, e: Entry, rest: seq<Entry>, n: nat, d: nat)
    requires es != []
    ensures Moved(es[..|es| - 1] + [e] + Moved(rest, n), d)
         == Moved(es, d)[..|es| - 1] + [e.(at := e.at + d)] + Moved(rest, n + d)
    ensures |Moved(es, d)| == |es| && Moved(es, d)[|es| - 1] == es[|es| - 1].(at := es[|es| - 1].at + d)
  {
  }

  lemma GrownAfter(first: Entry, es: seq<Entry>, e: Entry, rest: seq<Entry>)
    requires es != []
    ensures var all := [first] + es;
            && [first] + (es[..|es| - 1] + [e] + rest) == all[..|all| - 1] + [e] + rest
            && all[|all| - 1] == es[|es| - 1]
  {
  }

  /** Joining lines that end what is open before them joins the items. */
  lemma ItemsSpliced(a: seq<string>, b: seq<string>)
    requires Joins(a, b)
    ensures Items(a + b) == Items(a) + Moved(Items(b), |a|)
  {
    hide *;
    if OpenDash(a) == None {
      ItemsApart(a, b);
    } else {
      var e := ItemsGrown(a, b);
      GrownIs(a, b, e);
      JoinsIs(a, b);
      var n, m := |Items(a)| - 1, Body(b, OpenDash(a).value);
      ClosedBody(b, OpenDash(a).value);
      ItemsAfterBlanks(b[..m], b[m..]);
      assert b[..m] + b[m..] == b;
      MovedTwice(Items(b[m..]), m, |a|);
      assert Items(a)[..n] + [Items(a)[n]] == Items(a);
    }
  }

  lemma JoinsIs(a: seq<string>, b: seq<string>)
    ensures Joins(a, b) <==> (OpenDash(a).Some? ==> Closed(b, OpenDash(a).value))
    ensures b != [] && !Blank(b[0]) ==> (Joins(a, b) <==> !HeldOpen(a, Lead(b[0])))
  {
    hide OpenDash, Lead, Blank;
  }

  /** Blank lines at the end add nothing. */
  lemma ItemsThenBlanks(a: seq<string>, blanks: seq<string>)
    requires AllBlank(blanks)
    ensures Items(a + blanks) == Items(a) && OpenDash(a + blanks) == OpenDash(a)
  {
    hide *;
    ItemsOfBlanks(blanks);
    OpenJoined(a, blanks);
    BlanksClose(a, blanks);
    ItemsSpliced(a, blanks);
    MovedNone(|a|);
    assert Items(a) + [] == Items(a);
  }

  lemma {:induction false} BlanksClosed(blanks: seq<string>, rest: seq<string>, ind: nat)
    requires AllBlank(blanks)
    ensures Closed(blanks + rest, ind) <==> Closed(rest, ind)
    ensures Body(blanks, ind) == |blanks|
  {
    if blanks == [] {
      assert blanks + rest == rest;
    } else {
      assert (blanks + rest)[1..] == blanks[1..] + rest;
      BlanksClosed(blanks[1..], rest, ind);
    }
  }

  lemma BlanksClose(a: seq<string>, blanks: seq<string>)
    requires AllBlank(blanks)
    ensures Joins(a, blanks)
    ensures OpenDash(a).Some? ==> Body(blanks, OpenDash(a).value) == |blanks|
  {
    hide AllBlank, OpenDash, Body, Closed;
    if OpenDash(a).Some? {
      BlanksClosed(blanks, [], OpenDash(a).value);
      assert blanks + [] == blanks;
      NothingCloses(OpenDash(a).value);
    }
  }

  lemma NothingCloses(ind: nat)
    ensures Closed([], ind)
  {
  }

  // ------------------------------------------------------- what is left open --

  /** The last item of joined lines is open in the second of them, or still in the first. */
  lemma {:induction false} OpenJoined(a: seq<string>, b: seq<string>)
    ensures OpenDash(a + b) == if OpenDash(a).Some? && Body(b, OpenDash(a).value) == |b| then OpenDash(a)
            else OpenDash(b)
    decreases |a|
  {
    hide Body, Lead, ItemName, OpenDash;
    if a == [] {
      assert a + b == b;
      OpenNothing();
    } else {
      OpenStep(a);
      OpenStep(a + b);
      assert (a + b)[0] == a[0];
      if ItemName(a[0]) == None {
        assert (a + b)[1..] == a[1..] + b;
        OpenJoined(a[1..], b);
      } else {
        FirstAppend(a, b);
        var j := 1 + Body(a[1..], Lead(a[0]));
        if j < |a| {
          OpenJoined(a[j..], b);
        } else if Body(b, Lead(a[0])) < |b| {
          OpenAfterBody(b, Lead(a[0]));
        }
      }
    }
  }

  /** Once lines go back to an indentation, what they leave open began there or later. */
  lemma {:induction false} OpenAfterBody(ls: seq<string>, ind: nat)
    requires Body(ls, ind) < |ls|
    ensures OpenDash(ls[Body(ls, ind)..]) == OpenDash(ls)
    decreases |ls|
  {
    hide Lead, ItemName, OpenDash;
    var m := Body(ls, ind);
    if m == 0 {
      assert ls[0..] == ls;
    } else {
      OpenStep(ls);
      BodyRest(ls, ind);
      if ItemName(ls[0]) == None {
        OpenAfterBody(ls[1..], ind);
        assert ls[1..][m - 1..] == ls[m..];
      } else {
        ItemNotBlank(ls[0]);
        var j := 1 + Body(ls[1..], Lead(ls[0]));
        BodyWithin(ls[1..], Lead(ls[0]), ind);
        BodyTail(ls, j, ind);
        OpenAfterBody(ls[j..], ind);
        assert ls[j..][m - j..] == ls[m..];
      }
    }
  }

  lemma BodyRest(ls: seq<string>, ind: nat)
    requires Body(ls, ind) > 0
    ensures ls != [] && Body(ls[1..], ind) == Body(ls, ind) - 1 && (Blank(ls[0]) || Lead(ls[0]) > ind)
  {
  }

  /** A deeper item's body ends no later. */
  lemma {:induction false} BodyWithin(ls: seq<string>, deep: nat, ind: nat)
    requires ind <= deep
    ensures Body(ls, deep) <= Body(ls, ind)
  {
    if ls != [] {
      BodyWithin(ls[1..], deep, ind);
    }
  }

  lemma {:induction false} BodyTail(ls: seq<string>, j: nat, ind: nat)
    requires j <= Body(ls, ind)
    ensures Body(ls[j..], ind) == Body(ls, ind) - j
  {
    if j > 0 {
      BodyTail(ls[1..], j - 1, ind);
      assert ls[1..][j - 1..] == ls[j..];
    }
  }

  /** No line after the last item's first is indented as little as its dash. */
  ghost predicate Unended(ls: seq<string>) {
    && Items(ls) != []
    && var e := Items(ls)[|Items(ls)| - 1];
       forall k :: e.at < k < |ls| ==> Blank(ls[k]) || Lead(ls[k]) > Lead(e.text[0])
  }

  function LastDash(ls: seq<string>): nat {
    if Items(ls) == [] then 0 else Lead(Items(ls)[|Items(ls)| - 1].text[0])
  }

  /** What it means to be open. */
  lemma {:induction false} OpenMeans(ls: seq<string>)
    ensures OpenDash(ls) == if Unended(ls) then Some(LastDash(ls)) else None
    decreases |ls|
  {
    hide Items, Body, Core, Lead, ItemName, Moved, OpenDash, Blank, Unended, LastDash;
    if ls == [] {
      NothingUnended();
      OpenNothing();
    } else {
      OpenStep(ls);
      if ItemName(ls[0]) == None {
        OpenMeans(ls[1..]);
        StrayMeans(ls);
      } else {
        var j := 1 + Body(ls[1..], Lead(ls[0]));
        OpenMeans(ls[j..]);
        ItemMeans(ls);
      }
    }
  }

  lemma NothingUnended()
    ensures !Unended([])
  {
    NoItems();
  }

  lemma StrayMeans(ls: seq<string>)
    requires ls != [] && ItemName(ls[0]) == None
    ensures Unended(ls) <==> Unended(ls[1..])
    ensures Unended(ls) ==> LastDash(ls) == LastDash(ls[1..])
  {
    hide Items, Lead, ItemName, Moved, Blank;
    ItemsStep(ls);
    MeansMoved(ls, 1);
  }

  lemma ItemMeans(ls: seq<string>)
    requires ls != [] && ItemName(ls[0]).Some?
    ensures var j := 1 + Body(ls[1..], Lead(ls[0]));
            && (Unended(ls) <==> if j == |ls| then true else Unended(ls[j..]))
            && (Unended(ls) ==> LastDash(ls) == if j == |ls| then Lead(ls[0]) else LastDash(ls[j..]))
  {
    hide Items, Body, Core, Lead, ItemName, Moved, Blank;
    var j := 1 + Body(ls[1..], Lead(ls[0]));
    ItemsStep(ls);
    ItemHead(ls, j);
    var first := Entry(ItemName(ls[0]).value, 0, ls[..Core(ls[..j])]);
    assert first.text[0] == ls[0];
    if j == |ls| {
      NoItems();
      MovedNone(j);
      assert ls[j..] == [] && Items(ls) == [first];
      BodyLines(ls[1..], Lead(ls[0]));
      assert forall k :: 0 < k < |ls| ==> ls[k] == ls[1..][k - 1];
    } else {
      MeansMoved(ls, j);
      LastMeans(ls, j);
      if Items(ls[j..]) == [] {
        MovedNone(j);
        assert Items(ls) == [first];
      }
    }
  }

  /** A line that ends the first item is there for good. */
  lemma LastMeans(ls: seq<string>, j: nat)
    requires 0 < j < |ls| && ItemName(ls[0]).Some? && j == 1 + Body(ls[1..], Lead(ls[0]))
    ensures !Blank(ls[j]) && Lead(ls[j]) <= Lead(ls[0])
  {
    hide Body, Lead, ItemName, Blank;
    BodyLines(ls[1..], Lead(ls[0]));
    assert ls[1..][j - 1] == ls[j];
  }

  lemma MeansMoved(ls: seq<string>, d: nat)
    requires d <= |ls|
    ensures var es, later := Items(ls[d..]), Moved(Items(ls[d..]), d);
            && |later| == |es|
            && (es != [] ==>
                  var e, m := es[|es| - 1], later[|es| - 1];
                  && m.text == e.text
                  && ((forall k :: e.at < k < |ls[d..]| ==> Blank(ls[d..][k]) || Lead(ls[d..][k]) > Lead(e.text[0]))
                      <==> forall k :: m.at < k < |ls| ==> Blank(ls[k]) || Lead(ls[k]) > Lead(m.text[0])))
  {
    hide Items, Lead, Blank;
    var es := Items(ls[d..]);
    if es != [] {
      var e, m := es[|es| - 1], Moved(es, d)[|es| - 1];
      assert m.at == e.at + d;
      assert forall k :: d <= k < |ls| ==> ls[d..][k - d] == ls[k];
      assert forall k :: 0 <= k < |ls[d..]| ==> ls[d..][k] == ls[k + d];
    }
  }

  /** The items after a body are the last of the items of all the lines. */
  lemma ItemsAfterBody(ls: seq<string>, ind: nat)
    ensures var m := Body(ls, ind); Items(ls) == Items(ls[..m]) + Moved(Items(ls[m..]), m)
  {
    hide *;
    var m := Body(ls, ind);
    assert ls[..m] + ls[m..] == ls;
    BodyJoins(ls, ind);
    ItemsSpliced(ls[..m], ls[m..]);
  }

  lemma BodyJoins(ls: seq<string>, ind: nat)
    ensures var m := Body(ls, ind); Joins(ls[..m], ls[m..])
  {
    hide OpenDash, Items;
    var m := Body(ls, ind);
    BodyLines(ls, ind);
    OpenDeep(ls[..m], ind);
  }

  /** Lines deeper than some indentation leave nothing open at it. */
  lemma {:induction false} OpenDeep(ls: seq<string>, ind: nat)
    requires forall k :: 0 <= k < |ls| ==> Blank(ls[k]) || Lead(ls[k]) > ind
    ensures OpenDash(ls).Some? ==> OpenDash(ls).value > ind
    decreases |ls|
  {
    hide Body, Lead, ItemName, OpenDash, Blank;
    if ls == [] {
      OpenNothing();
    } else {
      OpenStep(ls);
      if ItemName(ls[0]) == None {
        OpenDeep(ls[1..], ind);
      } else {
        ItemNotBlank(ls[0]);
        OpenDeep(ls[1 + Body(ls[1..], Lead(ls[0]))..], ind);
      }
    }
  }

  /** The same items, by name and place, whatever lines they take. */
  predicate SameHeads(a: seq<Entry>, b: seq<Entry>) {
    |a| == |b| && forall k :: 0 <= k < |a| ==> a[k].name == b[k].name && a[k].at == b[k].at
  }

  /** Joined lines list the items of the first under their names, and those of the second past what the last of the
      first takes in. */
  lemma HeadsJoined(a: seq<string>, b: seq<string>) returns (heads: seq<Entry>)
    ensures var n := Past(b, OpenDash(a)); Items(a + b) == heads + Moved(Items(b[n..]), |a| + n)
    ensures SameHeads(heads, Items(a))
  {
    hide Items, OpenDash, Body, Moved, Joins;
    heads := Items(a);
    if OpenDash(a) == None {
      ItemsApart(a, b);
      assert b[0..] == b;
    } else {
      var e := ItemsGrown(a, b);
      heads := heads[..|heads| - 1] + [e];
    }
  }

  /** What is left past one body has the items past a longer one. */
  lemma ItemsPast(ls: seq<string>, deep: nat, ind: nat)
    requires ind <= deep
    ensures var m, n := Body(ls, deep), Body(ls, ind);
            m <= n && Items(ls[m..]) == Items(ls[m..][..n - m]) + Moved(Items(ls[n..]), n - m)
  {
    hide Items, Lead, Moved;
    BodyWithin(ls, deep, ind);
    var m, n := Body(ls, deep), Body(ls, ind);
    BodyTail(ls, m, ind);
    ItemsAfterBody(ls[m..], ind);
    assert ls[m..][n - m..] == ls[n..];
  }

  /** Lines put after others leave the items there where they begin, under their names. */
  lemma HeadsKept(a: seq<string>, b: seq<string>, k: nat)
    requires k < |Items(a)|
    ensures k < |Items(a + b)| && Items(a + b)[k].name == Items(a)[k].name && Items(a + b)[k].at == Items(a)[k].at
  {
    hide Items, OpenDash, Body, Moved, Joins;
    if OpenDash(a) == None {
      ItemsApart(a, b);
    } else {
      var e := ItemsGrown(a, b);
    }
  }

  /** An item of joined lines begins in the first where one of theirs does, or in the second where one of theirs
      does. */
  lemma HeadsFrom(a: seq<string>, b: seq<string>, k: nat) returns (j: nat)
    requires k < |Items(a + b)|
    ensures var e := Items(a + b)[k];
            if e.at < |a| then j == k < |Items(a)| && Items(a)[j].name == e.name && Items(a)[j].at == e.at
            else j < |Items(b)| && Items(b)[j].name == e.name && Items(b)[j].at + |a| == e.at
  {
    hide Items, OpenDash, Body, Joins;
    var n := |Items(a)|;
    if OpenDash(a) == None {
      ItemsApart(a, b);
      j := if k < n then k else k - n;
    } else {
      var e := ItemsGrown(a, b);
      var m := Body(b, OpenDash(a).value);
      ItemsAfterBody(b, OpenDash(a).value);
      j := if k < n then k else |Items(b[..m])| + (k - n);
    }
  }

  // ------------------------------------------------------- one of them --

  /** An item's lines are where it says, are an entry, and are closed by what follows. */
  ghost predicate Shaped(ls: seq<string>, e: Entry) {
    && e.at + |e.text| <= |ls| && e.text == ls[e.at..e.at + |e.text|]
    && IsEntry(e.text, e.name)
    && Closed(ls[e.at + |e.text|..], Lead(e.text[0]))
  }

  lemma {:induction false} ItemsShaped(ls: seq<string>, k: nat)
    requires k < |Items(ls)|
    ensures Shaped(ls, Items(ls)[k])
    decreases |ls|
  {
    hide Items, Body, Core, Lead, ItemName, Shaped;
    if ls == [] {
      NoItems();
    } else {
      ItemsStep(ls);
      if ItemName(ls[0]) == None {
        ItemsShaped(ls[1..], k);
        ShapedMoved(ls, 1, Items(ls[1..])[k]);
      } else {
        var j := 1 + Body(ls[1..], Lead(ls[0]));
        if k == 0 {
          FirstShaped(ls);
        } else {
          ItemsShaped(ls[j..], k - 1);
          ShapedMoved(ls, j, Items(ls[j..])[k - 1]);
        }
      }
    }
  }

  lemma ShapedMoved(ls: seq<string>, d: nat, e: Entry)
    requires d <= |ls| && Shaped(ls[d..], e)
    ensures Shaped(ls, e.(at := e.at + d))
  {
    hide Closed, IsEntry, Lead;
    assert ls[d..][e.at..e.at + |e.text|] == ls[e.at + d..e.at + d + |e.text|];
    assert ls[d..][e.at + |e.text|..] == ls[e.at + d + |e.text|..];
  }

  lemma BoundaryCloses(rest: seq<string>, ind: nat)
    requires rest == [] || (!Blank(rest[0]) && Lead(rest[0]) <= ind)
    ensures Closed(rest, ind)
  {
  }

  lemma FirstShaped(ls: seq<string>)
    requires ls != [] && ItemName(ls[0]).Some?
    ensures var j := 1 + Body(ls[1..], Lead(ls[0]));
            Shaped(ls, Entry(ItemName(ls[0]).value, 0, ls[..Core(ls[..j])]))
  {
    hide Body, Core, Lead, ItemName, Closed;
    var j := 1 + Body(ls[1..], Lead(ls[0]));
    var item := ls[..j];
    var n := Core(item);
    ItemNotBlank(ls[0]);
    CoreOfItem(item);
    CoreLines(item);
    BodyLines(ls[1..], Lead(ls[0]));
    var text := ls[..n];
    assert text[n - 1] == item[n - 1];
    forall k | 0 < k < n
      ensures Blank(text[k]) || Lead(text[k]) > Lead(text[0])
    {
      assert text[k] == ls[1..][k - 1];
    }
    assert ls[n..] == item[n..] + ls[j..];
    if j < |ls| {
      assert ls[j..][0] == ls[1..][j - 1];
    }
    BlanksClosed(item[n..], ls[j..], Lead(ls[0]));
    assert Closed(ls[j..], Lead(ls[0])) by { BoundaryCloses(ls[j..], Lead(ls[0])); }
    assert ls[0 + |text|..] == ls[n..];
  }

  /** Cutting just before an item leaves the items before it, and starts with it. */
  lemma {:induction false} ItemsCut(ls: seq<string>, k: nat)
    requires k < |Items(ls)|
    ensures Items(ls)[k].at <= |ls|
    ensures Items(ls[..Items(ls)[k].at]) == Items(ls)[..k]
    ensures Moved(Items(ls[Items(ls)[k].at..]), Items(ls)[k].at) == Items(ls)[k..]
    decreases |ls|
  {
    hide Items, Body, Core, Lead, ItemName, Moved;
    if ls == [] {
      NoItems();
    } else {
      ItemsStep(ls);
      var j := if ItemName(ls[0]) == None then 1 else 1 + Body(ls[1..], Lead(ls[0]));
      var skip := if ItemName(ls[0]) == None then 0 else 1;
      MovedLength(Items(ls[j..]), j);
      if k < skip {
        assert ls[..0] == [] && ls[0..] == ls;
        NoItems();
        MovedSame(Items(ls), 0);
      } else {
        ItemsCut(ls[j..], k - skip);
        var at := Items(ls[j..])[k - skip].at;
        MovedAt(Items(ls[j..]), j, k - skip);
        assert Items(ls)[k].at == at + j;
        assert ls[at + j..] == ls[j..][at..];
        MovedTwice(Items(ls[j..][at..]), at, j);
        MovedCut(Items(ls[j..]), j, k - skip);
        if skip == 0 { CutHeadStray(ls, at + j); } else { CutHeadItem(ls, at + j, j); }
        if skip == 0 {
          assert Items(ls)[..k] == Moved(Items(ls[j..]), j)[..k] && Items(ls)[k..] == Moved(Items(ls[j..]), j)[k..];
        } else {
          assert Items(ls)[..k] == [Items(ls)[0]] + Moved(Items(ls[j..]), j)[..k - 1];
          assert Items(ls)[k..] == Moved(Items(ls[j..]), j)[k - 1..];
        }
      }
    }
  }

  lemma MovedLength(es: seq<Entry>, d: nat)
    ensures |Moved(es, d)| == |es|
  {
  }

  lemma MovedAt(es: seq<Entry>, d: nat, k: nat)
    requires k < |es|
    ensures Moved(es, d)[k] == es[k].(at := es[k].at + d)
  {
  }

  lemma MovedCut(es: seq<Entry>, d: nat, k: nat)
    requires k <= |es|
    ensures Moved(es, d)[..k] == Moved(es[..k], d) && Moved(es, d)[k..] == Moved(es[k..], d)
  {
  }

  /** The first step is the same on lines cut after it. */
  lemma CutHeadStray(ls: seq<string>, n: nat)
    requires 1 <= n <= |ls| && ItemName(ls[0]) == None
    ensures Items(ls[..n]) == Moved(Items(ls[1..][..n - 1]), 1)
  {
    hide *;
    ItemsStep(ls[..n]);
    assert ls[..n][1..] == ls[1..][..n - 1];
  }

  lemma CutHeadItem(ls: seq<string>, n: nat, j: nat)
    requires 1 <= j <= n <= |ls| && ItemName(ls[0]).Some? && j == 1 + Body(ls[1..], Lead(ls[0]))
    ensures Items(ls[..n]) == [Entry(ItemName(ls[0]).value, 0, ls[..Core(ls[..j])])] + Moved(Items(ls[j..][..n - j]), j)
  {
    hide *;
    ItemsStep(ls[..n]);
    SliceOfSlice(ls, n, j);
    BodyCut(ls[1..], n - 1, Lead(ls[0]));
  }

  lemma SliceOfSlice(ls: seq<string>, n: nat, j: nat)
    requires 1 <= j <= n <= |ls|
    ensures ls[..n][1..] == ls[1..][..n - 1]
    ensures ls[..n][j..] == ls[j..][..n - j]
    ensures ls[..n][..j] == ls[..j]
    ensures forall c :: 0 <= c <= j ==> ls[..n][..c] == ls[..c]
  {
  }

  /** An entry alone is its own only item. */
  lemma EntryItem(t: seq<string>, name: string)
    requires IsEntry(t, name)
    ensures Items(t) == [Entry(name, 0, t)]
  {
    hide Items, Core, Lead, ItemName, Moved;
    ItemsStep(t);
    EntryBody(t[1..], Lead(t[0]));
    assert t[..|t|] == t && t[|t|..] == [];
    assert Core(t) == |t| by {
      CoreFull(t);
    }
    NoItems();
    MovedNone(|t|);
  }

  lemma CoreFull(t: seq<string>)
    requires t != [] && !Blank(t[|t| - 1])
    ensures Core(t) == |t|
  {
  }

  lemma {:induction false} EntryBody(ls: seq<string>, ind: nat)
    requires forall k :: 0 <= k < |ls| ==> Blank(ls[k]) || Lead(ls[k]) > ind
    ensures Body(ls, ind) == |ls|
  {
    if ls != [] {
      EntryBody(ls[1..], ind);
    }
  }

  /** An entry leaves itself open, to anything deeper than its dash. */
  lemma EntryOpen(t: seq<string>, name: string)
    requires IsEntry(t, name)
    ensures OpenDash(t) == Some(Lead(t[0])) && !Blank(t[0])
  {
    hide Lead, ItemName;
    OpenStep(t);
    EntryBody(t[1..], Lead(t[0]));
    ItemNotBlank(t[0]);
  }

  // --------------------------------------------------- edits of a listing --

  lemma ListedIs(ls: seq<string>)
    ensures Listed(ls) == Listing(Items(ls)) && |Listed(ls)| == |Items(ls)|
  {
  }

  lemma ListedSpliced(a: seq<string>, b: seq<string>)
    requires Joins(a, b)
    ensures Listed(a + b) == Listed(a) + Listed(b)
  {
    hide *;
    ListedIs(a);
    ListedIs(b);
    ListedIs(a + b);
    ItemsSpliced(a, b);
    ListingAppend(Items(a), Moved(Items(b), |a|));
    ListingMoved(Items(b), |a|);
  }

  /** Joined to lines that do not end what is open before them, the last item grows. */
  lemma ListedGrown(a: seq<string>, b: seq<string>) returns (grown: Route)
    requires !Joins(a, b)
    ensures OpenDash(a).Some? && Listed(a) != []
    ensures var n, m := |Listed(a)| - 1, Body(b, OpenDash(a).value);
            && Listed(a + b) == Listed(a)[..n] + [grown] + Listed(b[m..])
            && grown.name == Listed(a)[n].name && |grown.text| > |Listed(a)[n].text|
  {
    hide *;
    JoinsIs(a, b);
    var e := ItemsGrown(a, b);
    GrownIs(a, b, e);
    ListedIs(a);
    ListedIs(a + b);
    var n, m := |Items(a)| - 1, Body(b, OpenDash(a).value);
    ListedIs(b[m..]);
    ListingGrown(Items(a), e, Items(b[m..]), |a| + m);
    grown := Route(e.name, e.text);
  }

  lemma ListingGrown(es: seq<Entry>, e: Entry, rest: seq<Entry>, d: nat)
    requires es != []
    ensures Listing(es[..|es| - 1] + [e] + Moved(rest, d))
            == Listing(es)[..|es| - 1] + [Route(e.name, e.text)] + Listing(rest)
    ensures Listing(es) != [] && |Listing(es)| == |es|
    ensures Listing(es)[|es| - 1] == Route(es[|es| - 1].name, es[|es| - 1].text)
  {
  }

  lemma EntryListed(t: seq<string>, name: string, rest: seq<string>)
    requires IsEntry(t, name) && Closed(rest, Lead(t[0]))
    ensures Listed(t + rest) == [Route(name, t)] + Listed(rest)
  {
    EntryAlone(t, name);
    EntryOpen(t, name);
    JoinsIs(t, rest);
    hide *;
    ListedSpliced(t, rest);
  }

  lemma EntryAlone(t: seq<string>, name: string)
    requires IsEntry(t, name)
    ensures Listed(t) == [Route(name, t)]
  {
    hide Items, ItemName, Lead;
    EntryItem(t, name);
  }

  lemma EntryJoins(a: seq<string>, t: seq<string>, name: string, rest: seq<string>)
    requires IsEntry(t, name)
    ensures Joins(a, t + rest) <==> !HeldOpen(a, Lead(t[0]))
  {
    hide Lead, ItemName, OpenDash, Closed, HeldOpen, Joins;
    ItemNotBlank(t[0]);
    assert (t + rest)[0] == t[0];
    JoinsIs(a, t + rest);
  }

  lemma EntryIn(a: seq<string>, t: seq<string>, name: string, b: seq<string>)
    requires IsEntry(t, name) && !HeldOpen(a, Lead(t[0])) && Closed(b, Lead(t[0]))
    ensures Listed(a + (t + b)) == Listed(a) + [Route(name, t)] + Listed(b)
  {
    EntryStarts(t, name);
    hide *;
    EntryJoins(a, t, name, b);
    ListedSpliced(a, t + b);
    EntryListed(t, name, b);
    Regrouped(Listed(a), Route(name, t), Listed(b));
  }

  lemma Regrouped(rs: seq<Route>, r: Route, more: seq<Route>)
    ensures rs + ([r] + more) == rs + [r] + more
  {
  }

  lemma Set(rs: seq<Route>, k: nat, r: Route)
    requires k < |rs|
    ensures rs[..k] + [r] + rs[k + 1..] == rs[k := r]
  {
  }

  /** An item held open before an entry takes it in, or some of it. */
  lemma EntryHeld(a: seq<string>, t: seq<string>, name: string, b: seq<string>)
    requires IsEntry(t, name) && HeldOpen(a, Lead(t[0]))
    ensures Listed(a) != [] && |Listed(a + (t + b))| >= |Listed(a)|
    ensures |Listed(a + (t + b))[|Listed(a)| - 1].text| > |Listed(a)[|Listed(a)| - 1].text|
  {
    EntryStarts(t, name);
    hide *;
    EntryJoins(a, t, name, b);
    var grown := ListedGrown(a, t + b);
    PickAt(Listed(a)[..|Listed(a)| - 1], grown, Listed((t + b)[Body(t + b, OpenDash(a).value)..]));
  }

  lemma PickAt(rs: seq<Route>, r: Route, more: seq<Route>)
    ensures (rs + [r] + more)[|rs|] == r
  {
  }

  /** An entry that the lines after it do not end takes some of them in. */
  lemma EntryTakes(a: seq<string>, t: seq<string>, name: string, b: seq<string>)
    requires IsEntry(t, name) && !HeldOpen(a, Lead(t[0])) && !Closed(b, Lead(t[0]))
    ensures |Listed(a + (t + b))| > |Listed(a)|
    ensures var r := Listed(a + (t + b))[|Listed(a)|]; r.name == name && |r.text| > |t|
    ensures Listed(a + (t + b))[..|Listed(a)|] == Listed(a)
  {
    EntryStarts(t, name);
    EntryOpen(t, name);
    JoinsIs(t, b);
    hide *;
    EntryJoins(a, t, name, b);
    ListedSpliced(a, t + b);
    EntryAlone(t, name);
    var grown := ListedGrown(t, b);
    PickAt(Listed(a), grown, Listed(b[Body(b, OpenDash(t).value)..]));
    TakesParts(Listed(a), grown, Listed(b[Body(b, OpenDash(t).value)..]), Listed(t)[..0]);
  }

  lemma TakesParts(rs: seq<Route>, r: Route, more: seq<Route>, none: seq<Route>)
    requires none == []
    ensures rs + (none + [r] + more) == rs + [r] + more && (rs + (none + [r] + more))[..|rs|] == rs
  {
  }

  /** An entry put between lines is listed between theirs, which stay as they are, exactly when no item before it is
      held open and the lines after it end it. */
  lemma EntryFits(a: seq<string>, t: seq<string>, name: string, b: seq<string>)
    requires IsEntry(t, name)
    ensures Listed(a + (t + b)) == Listed(a) + [Route(name, t)] + Listed(b)
       <==> !HeldOpen(a, Lead(t[0])) && Closed(b, Lead(t[0]))
  {
    EntryStarts(t, name);
    hide *;
    if HeldOpen(a, Lead(t[0])) {
      EntryHeld(a, t, name, b);
      FrontAt(Listed(a), Route(name, t), Listed(b), |Listed(a)| - 1);
    } else if Closed(b, Lead(t[0])) {
      EntryIn(a, t, name, b);
    } else {
      EntryTakes(a, t, name, b);
      PickAt(Listed(a), Route(name, t), Listed(b));
    }
  }

  lemma FrontAt(rs: seq<Route>, r: Route, more: seq<Route>, k: nat)
    requires k < |rs|
    ensures (rs + [r] + more)[k] == rs[k]
  {
  }

  lemma EntryStarts(t: seq<string>, name: string)
    requires IsEntry(t, name)
    ensures t != []
  {
  }

  /** Lines around their k-th item. */
  function Above(ls: seq<string>, k: nat): seq<string>
    requires k < |Listed(ls)|
  {
    ls[..Items(ls)[k].at]
  }

  function Below(ls: seq<string>, k: nat): seq<string>
    requires k < |Listed(ls)|
  {
    ls[Items(ls)[k].at + |Items(ls)[k].text|..]
  }

  lemma CutAround(ls: seq<string>, k: nat)
    requires k < |Listed(ls)|
    ensures var r := Listed(ls)[k];
            && ls == Above(ls, k) + (r.text + Below(ls, k))
            && IsEntry(r.text, r.name) && Closed(Below(ls, k), Lead(r.text[0]))
               && !HeldOpen(Above(ls, k), Lead(r.text[0]))
    ensures Listed(Above(ls, k)) == Listed(ls)[..k] && Listed(Below(ls, k)) == Listed(ls)[k + 1..]
  {
    hide Items, Lead, Closed, IsEntry, Moved, HeldOpen;
    var e := Items(ls)[k];
    ItemsShaped(ls, k);
    ItemsCut(ls, k);
    var from := ls[e.at..];
    assert from == e.text + Below(ls, k);
    assert Listing(Items(ls)[..k]) == Listed(ls)[..k];
    assert Listing(Items(ls)[k..]) == Listed(ls)[k..];
    ListingMoved(Items(from), e.at);
    EntryListed(e.text, e.name, Below(ls, k));
    assert Listed(ls)[k..][1..] == Listed(ls)[k + 1..];
    assert Listed(ls)[k..] == [Route(e.name, e.text)] + Listed(Below(ls, k));
    assert ls == Above(ls, k) + (e.text + Below(ls, k));
    CutFits(Above(ls, k), e.text, e.name, Below(ls, k), Listed(ls), k);
  }

  lemma CutFits(a: seq<string>, t: seq<string>, name: string, b: seq<string>, rs: seq<Route>, k: nat)
    requires IsEntry(t, name) && k < |rs| && rs[k] == Route(name, t)
    requires Listed(a + (t + b)) == rs && Listed(a) == rs[..k] && Listed(b) == rs[k + 1..]
    ensures !HeldOpen(a, Lead(t[0]))
  {
    EntryStarts(t, name);
    hide *;
    EntryFits(a, t, name, b);
    SplitAt(rs, k);
  }

  /** Putting an entry in the place of an item changes that item of the listing only, exactly when it fits there. */
  lemma ListedReplaced(ls: seq<string>, k: nat, t: seq<string>, name: string)
    requires k < |Listed(ls)| && IsEntry(t, name)
    ensures Listed(Above(ls, k) + t + Below(ls, k)) == Listed(ls)[k := Route(name, t)]
       <==> !HeldOpen(Above(ls, k), Lead(t[0])) && Closed(Below(ls, k), Lead(t[0]))
  {
    EntryStarts(t, name);
    hide *;
    CutAround(ls, k);
    var a, b, rs := Above(ls, k), Below(ls, k), Listed(ls);
    Between(a, t, b);
    EntryFits(a, t, name, b);
    Set(rs, k, Route(name, t));
  }

  lemma Between(a: seq<string>, t: seq<string>, b: seq<string>)
    ensures a + t + b == a + (t + b)
  {
  }

  /** Deleting an item's lines deletes it from the listing only. */
  lemma ListedDeleted(ls: seq<string>, k: nat)
    requires k < |Listed(ls)|
    ensures Listed(Above(ls, k) + Below(ls, k)) == Listed(ls)[..k] + Listed(ls)[k + 1..]
    ensures Joins(Above(ls, k), Below(ls, k))
  {
    CutStarts(ls, k);
    hide *;
    CutAround(ls, k);
    var x := Lead(Listed(ls)[k].text[0]);
    ClosesOuter(Above(ls, k), Below(ls, k), x);
    ListedSpliced(Above(ls, k), Below(ls, k));
  }

  lemma CutStarts(ls: seq<string>, k: nat)
    requires k < |Listed(ls)|
    ensures Listed(ls)[k].text != []
  {
    CutAround(ls, k);
    EntryStarts(Listed(ls)[k].text, Listed(ls)[k].name);
  }

  lemma ClosesOuter(a: seq<string>, b: seq<string>, x: nat)
    requires Closed(b, x) && !HeldOpen(a, x)
    ensures Joins(a, b)
  {
    hide OpenDash;
    if OpenDash(a).Some? {
      ClosesMore(b, x, OpenDash(a).value);
    }
  }

  lemma {:induction false} ClosesMore(ls: seq<string>, x: nat, y: nat)
    requires Closed(ls, x) && x <= y
    ensures Closed(ls, y)
  {
    if ls != [] && Blank(ls[0]) {
      ClosesMore(ls[1..], x, y);
    }
  }

  /** An entry put after lines comes last in the listing exactly when no item is held open there. */
  lemma ListedAdded(ls: seq<string>, t: seq<string>, name: string)
    requires IsEntry(t, name)
    ensures Listed(ls + t) == Listed(ls) + [Route(name, t)] <==> !HeldOpen(ls, Lead(t[0]))
  {
    EntryStarts(t, name);
    hide *;
    NothingCloses(Lead(t[0]));
    NothingListed();
    EntryFits(ls, t, name, []);
    NothingMore(ls, t, Listed(ls), Route(name, t));
  }

  lemma NothingMore(ls: seq<string>, t: seq<string>, rs: seq<Route>, r: Route)
    ensures ls + (t + []) == ls + t && rs + [r] + [] == rs + [r]
  {
  }

  /** When one is, that item takes the whole entry in. */
  lemma ListedSwallowed(ls: seq<string>, t: seq<string>, name: string) returns (grown: Route)
    requires IsEntry(t, name) && HeldOpen(ls, Lead(t[0]))
    ensures Listed(ls) != [] && Listed(ls + t) == Listed(ls)[..|Listed(ls)| - 1] + [grown]
    ensures grown.name == Listed(ls)[|Listed(ls)| - 1].name
    ensures OpenDash(ls + t) == OpenDash(ls)
  {
    EntryStarts(t, name);
    EntryDeep(t, name, OpenDash(ls).value);
    HeldIs(ls, Lead(t[0]));
    hide *;
    EntryJoins(ls, t, name, []);
    assert t + [] == t;
    grown := ListedGrown(ls, t);
    assert t[|t|..] == [];
    NothingListed();
    OpenJoined(ls, t);
  }

  lemma NothingListed()
    ensures Listed([]) == []
  {
    NoItems();
  }

  lemma HeldIs(ls: seq<string>, deep: nat)
    ensures HeldOpen(ls, deep) <==> OpenDash(ls).Some? && OpenDash(ls).value < deep
  {
  }

  lemma EntryDeep(t: seq<string>, name: string, ind: nat)
    requires IsEntry(t, name) && ind < Lead(t[0])
    ensures Body(t, ind) == |t|
  {
    hide Lead;
    EntryBody(t, ind);
  }
}
