/** Configs at the edges of what the editor handles: without markers, with a list at column 0, and with markers
    deeper than the items before them. */
module GatewayCases {
  import opened Prelude
  import opened Text
  import opened Gateway
  import opened GatewayItems
  import opened GatewayConfig
  import opened GatewayEdits
  import opened GatewayAgain

  // ------------------------------------------- a config without markers --

  predicate Bare(lines: seq<string>) { Unmarked(lines) && ModelListAt(lines).Some? }

  /** The parts ensure_block makes of it: an empty block first in the list. */
  function BareParts(lines: seq<string>): Parts
    requires ModelListAt(lines).Some?
  {
    AtWithin(lines);
    var at := ModelListAt(lines).value;
    var space := ItemIndent(lines[at + 1..]);
    Parts(lines[..at + 1], space + BEGIN, [], space + END, lines[at + 1..])
  }

  /** An item that does not end the section is indented, by a blank or a tab first. */
  lemma ItemIndented(ln: string)
    requires ItemName(ln).Some? && !LeavesSection(ln)
    ensures Lead(ln) > 0 && (ln[0] == ' ' || ln[0] == '\t')
  {
    hide NameAfterDash, Lead;
    assert DropSpace(ln)[0] == ln[Lead(ln)];
  }

  lemma {:induction false} IndentSpec(ls: seq<string>)
    ensures AllSpace(ItemIndent(ls)) && Indents(ItemIndent(ls))
  {
    hide ItemName, LeavesSection, Lead;
    if ls != [] && !LeavesSection(ls[0]) {
      if ItemName(ls[0]).Some? {
        ItemIndented(ls[0]);
      } else {
        IndentSpec(ls[1..]);
      }
    }
  }

  /** A marker line as ensure_block writes it. */
  lemma MarkerWritten(ind: string, marker: string)
    requires AllSpace(ind) && Indents(ind) && (marker == BEGIN || marker == END)
    ensures Strip(ind + marker) == marker && Lead(ind + marker) == |ind| && !LeavesSection(ind + marker)
    ensures (ind + marker)[..|ind|] == ind
  {
    MarkerStrips();
    StripIndented(ind, marker);
  }

  lemma BareMeans(lines: seq<string>)
    requires Bare(lines)
    ensures Unmarked(lines) && ModelListAt(lines).Some? && ModelListAt(lines).value < |lines|
    ensures var at := ModelListAt(lines).value;
            var space := ItemIndent(lines[at + 1..]);
            BareParts(lines) == Parts(lines[..at + 1], space + BEGIN, [], space + END, lines[at + 1..])
  {
    hide Unmarked, ModelListAt, ItemIndent, BEGIN, END;
    AtWithin(lines);
  }

  lemma BareSited(lines: seq<string>)
    requires Bare(lines)
    ensures var p := BareParts(lines);
            Sited(p) && Lead(p.begin) == Lead(p.end) && Indents(p.begin[..Lead(p.begin)]) && p.managed == []
  {
    hide *;
    BareMeans(lines);
    var p, at := BareParts(lines), ModelListAt(lines).value;
    var space := ItemIndent(lines[at + 1..]);
    IndentSpec(lines[at + 1..]);
    MarkerWritten(space, BEGIN);
    MarkerWritten(space, END);
    BareMarked(lines, p, at);
    assert lines == lines[..at + 1] + lines[at + 1..];
    ModelListSpec(lines);
    ListLast(lines, at);
    LinesAre(p);
    ModelListJoined(p.front, Inner(p));
    ModelListJoined(p.front + Inner(p), p.back);
    SitedIs(p);
  }

  lemma BareMarked(lines: seq<string>, p: Parts, at: nat)
    requires at < |lines| && p == Parts(lines[..at + 1], p.begin, [], p.end, lines[at + 1..])
    requires Unmarked(lines) && Strip(p.begin) == BEGIN && Strip(p.end) == END
    ensures Marked(p)
  {
    hide Strip, BEGIN, END;
  }

  lemma ListLast(lines: seq<string>, at: nat)
    requires at < |lines| && ModelListAt(lines) == Some(at)
    ensures ModelListAt(lines[..at + 1]).Some?
  {
    hide ModelListAt, IsModelList;
    ModelListSpec(lines);
    assert lines == lines[..at + 1] + lines[at + 1..];
    ModelListJoined(lines[..at + 1], lines[at + 1..]);
  }

  /** ensure_block puts an empty block first in the list and changes no other line. */
  lemma BareEnsures(lines: seq<string>)
    requires Bare(lines)
    ensures var p, at := BareParts(lines), ModelListAt(lines).value;
            && at < |lines| && EnsureBlock(lines) == Ok(Ensured(Lines(p), Span(First(p), Last(p))))
            && Lines(p) == lines[..at + 1] + [p.begin, p.end] + lines[at + 1..]
  {
    hide *;
    BareMeans(lines);
    NoBlock(lines);
    var p, at := BareParts(lines), ModelListAt(lines).value;
    BareLines(lines, p, at);
    EnsureNone(lines, p.begin, p.end);
  }

  /** The markers it puts there are indented as the section's first item is. */
  lemma BareMarkers(lines: seq<string>)
    requires Bare(lines)
    ensures var p, at := BareParts(lines), ModelListAt(lines).value;
            && at < |lines|
            && p.begin == ItemIndent(lines[at + 1..])
                          + ("# >>> " + "dgx-serve managed: rack up and rack down keep the routes in here")
            && p.end == ItemIndent(lines[at + 1..]) + ("# <<< " + "dgx-serve managed")
  {
    hide *;
    BareMeans(lines);
    Markers();
  }

  lemma Markers()
    ensures BEGIN == "# >>> " + "dgx-serve managed: rack up and rack down keep the routes in here"
    ensures END == "# <<< " + "dgx-serve managed"
  {
  }

  lemma EnsureNone(lines: seq<string>, begin: string, end: string)
    requires BlockOf(lines) == Ok(None) && ModelListAt(lines).Some? && ModelListAt(lines).value < |lines|
    requires var ind := ItemIndent(lines[ModelListAt(lines).value + 1..]);
             begin == ind + BEGIN && end == ind + END
    ensures var at := ModelListAt(lines).value;
            EnsureBlock(lines) == Ok(Ensured(lines[..at + 1] + [begin, end] + lines[at + 1..], Span(at + 1, at + 2)))
  {
    hide BlockOf, ModelListAt, ItemIndent, BEGIN, END;
  }

  lemma BareLines(lines: seq<string>, p: Parts, at: nat)
    requires at < |lines| && p == Parts(lines[..at + 1], p.begin, [], p.end, lines[at + 1..])
    ensures Lines(p) == lines[..at + 1] + [p.begin, p.end] + lines[at + 1..]
    ensures First(p) == at + 1 && Last(p) == at + 2
  {
    assert Inner(p) == [p.begin, p.end];
  }

  /** On a config without markers sync does what it does once the empty block is there. */
  lemma BareSync(lines: seq<string>, name: string, served: string, apiBase: string, apiKey: string)
    requires Bare(lines)
    ensures Sync(lines, name, served, apiBase, apiKey) == Sync(Lines(BareParts(lines)), name, served, apiBase, apiKey)
  {
    hide *;
    BareMeans(lines);
    var p := BareParts(lines);
    BareSited(lines);
    BareEnsures(lines);
    SitedMarks(p);
    MarkedBlock(p);
    EnsureFound(Lines(p));
    ManagedFound(p);
    NoItems();
    MovedNone(First(p) + 1);
    SameEnsured(lines, Lines(p), name, served, apiBase, apiKey);
  }

  lemma SameEnsured(lines: seq<string>, ls: seq<string>, name: string, served: string, apiBase: string, apiKey: string)
    requires EnsureBlock(lines).Ok? && EnsureBlock(lines) == EnsureBlock(ls)
    requires Managed(EnsureBlock(lines).value.lines, EnsureBlock(lines).value.span) == []
    ensures Sync(lines, name, served, apiBase, apiKey) == Sync(ls, name, served, apiBase, apiKey)
  {
    hide EnsureBlock, Outside, Render, Replaced, BlockOf, Managed;
    assert Named([], name) == None;
  }

  /** The whole cycle on any config without markers, whatever its list holds: sync, an identical sync that changes
      nothing, and a remove that gives back exactly the lines of ensure_block. */
  lemma BareCycle(lines: seq<string>, name: string, served: string, apiBase: string, apiKey: string)
    requires Bare(lines) && PlainName(name) && !ByHand(BareParts(lines), name)
    ensures var synced := Sync(lines, name, served, apiBase, apiKey);
            && synced.Ok? && synced.value.changed
            && Sync(synced.value.lines, name, served, apiBase, apiKey) == Ok(Edited(false, synced.value.lines))
            && EnsureBlock(lines).Ok?
            && Remove(synced.value.lines, name) == Ok(Edited(true, EnsureBlock(lines).value.lines))
  {
    hide *;
    BareMeans(lines);
    var p := BareParts(lines);
    var route := RouteFor(p, name, served, apiBase, apiKey);
    BareSited(lines);
    BareEnsures(lines);
    BareSync(lines, name, served, apiBase, apiKey);
    NothingManaged(name, Lead(p.begin));
    SyncGood(p, name, served, apiBase, apiKey);
    RouteGood(p, name, served, apiBase, apiKey);
    UpdatedChanges(p.managed, name, route);
    SyncNew(p, name, served, apiBase, apiKey);
    RemoveUndoesSync(p, name, served, apiBase, apiKey);
  }

  lemma NothingManaged(name: string, ind: nat)
    ensures Listed([]) == [] && !Has(Listed([]), name)
    ensures Fits([], name, ind) && !HeldOpen([], ind) && IndexOf(Listed([]), name) == 0
  {
    NothingListed();
    OpenNothing();
  }

  /** status of a config without markers: nothing is managed. */
  lemma BareStatus(lines: seq<string>)
    requires Bare(lines)
    ensures StatusOf(lines).Ok? && Outside(lines, None).Ok?
    ensures StatusOf(lines).value == Status([], Names(Outside(lines, None).value), false)
    ensures forall name :: Remove(lines, name) == Ok(Edited(false, lines))
  {
    hide Unmarked, ModelListAt, Names, SectionLength, Items, Moved, NotInside;
    NoBlock(lines);
    AtWithin(lines);
  }

  /** What is refused: markers that are neither absent nor sound, by every command; a config without a list, by all that
      look for one. */
  lemma Refusals(lines: seq<string>, name: string, served: string, apiBase: string, apiKey: string)
    ensures BlockOf(lines).Err? ==>
              && Sync(lines, name, served, apiBase, apiKey) == Err(DamagedMarkers)
              && Remove(lines, name) == Err(DamagedMarkers) && Adopt(lines, name) == Err(DamagedMarkers)
              && StatusOf(lines) == Err(DamagedMarkers)
    ensures BlockOf(lines).Ok? && ModelListAt(lines) == None ==>
              && Sync(lines, name, served, apiBase, apiKey) == Err(NoModelList)
              && Adopt(lines, name) == Err(NoModelList) && StatusOf(lines) == Err(NoModelList)
  {
    hide Where, ModelListAt, SectionLength, Items, Moved, NotInside, Named, Render, Replaced;
  }

  /** Markers are sound exactly when the config has parts of its own, and absent when no line is one. */
  lemma BlockWhen(lines: seq<string>)
    ensures BlockOf(lines).Ok? && BlockOf(lines).value.Some? <==> exists p :: Marked(p) && Lines(p) == lines
    ensures BlockOf(lines) == Ok(None) <==> Unmarked(lines)
  {
    hide Marked, Lines, Unmarked;
    if BlockOf(lines).Ok? && BlockOf(lines).value.Some? {
      var p := PartsOf(lines, BlockOf(lines).value.value);
    }
    if p :| Marked(p) && Lines(p) == lines {
      MarkedBlock(p);
    }
    if Unmarked(lines) {
      NoBlock(lines);
    }
    if BlockOf(lines) == Ok(None) {
      NoneMarked(lines);
    }
  }

  lemma NoneMarked(lines: seq<string>)
    requires BlockOf(lines) == Ok(None)
    ensures Unmarked(lines)
  {
    hide Strip, Where, BEGIN, END;
    forall k | 0 <= k < |lines|
      ensures Strip(lines[k]) != BEGIN && Strip(lines[k]) != END
    {
      if Strip(lines[k]) == BEGIN { WhereAll(lines, BEGIN, k); }
      if Strip(lines[k]) == END { WhereAll(lines, END, k); }
    }
  }

  // ------------------------------------------------------ a list at column 0 --

  /** A line at column 0 ends what rack sees of the list: with no item before it, outside finds nothing. */
  lemma ColumnZero(pre: seq<string>, head: string, before: seq<string>, ln: string, after: seq<string>,
                   span: Option<Span>)
    requires (forall k :: 0 <= k < |pre| ==> !IsModelList(pre[k])) && IsModelList(head)
    requires LeavesSection(ln) && Items(before) == []
    ensures Outside(pre + [head] + (before + ([ln] + after)), span) == Ok([])
  {
    var rest := before + ([ln] + after);
    var lines, n := pre + [head] + rest, SectionLength(before);
    SectionAppend(before, [ln] + after);
    ColumnEnds(ln, after);
    hide LeavesSection, IsModelList, SectionLength, Items, Moved, ModelListAt, NotInside, Outside;
    ListThere(pre, head, rest);
    assert lines[|pre| + 1..] == rest && rest[..n] == before[..n];
    assert Reads(lines, |pre|, before[..n]);
    OutsideIs(lines, |pre|, before[..n], span);
    NoneBefore(before, n);
    NoneMoved(|pre| + 1, span);
  }

  lemma ColumnEnds(ln: string, after: seq<string>)
    requires LeavesSection(ln)
    ensures SectionLength([ln] + after) == 0
  {
    hide LeavesSection;
    assert ([ln] + after)[0] == ln;
  }

  lemma ListThere(pre: seq<string>, head: string, rest: seq<string>)
    requires (forall k :: 0 <= k < |pre| ==> !IsModelList(pre[k])) && IsModelList(head)
    ensures ModelListAt(pre + [head] + rest) == Some(|pre|)
  {
    NoModelLists(pre);
    hide IsModelList;
    assert pre + [head] + rest == pre + ([head] + rest);
    ModelListJoined(pre, [head] + rest);
    assert ([head] + rest)[0] == head;
  }

  lemma NoneMoved(d: nat, span: Option<Span>)
    ensures NotInside(Moved([], d), span) == []
  {
    MovedNone(d);
  }

  /** So sync never refuses a route for being written by hand once such a line ends the list above its block: the
      entries after it are shadowed. */
  lemma ColumnZeroShadowed(p: Parts, before: seq<string>, ln: string, after: seq<string>, name: string, served: string,
                           apiBase: string, apiKey: string)
    requires Sited(p)
    requires Upper(p) == before + ([ln] + after) && LeavesSection(ln) && Items(before) == []
    ensures Sync(Lines(p), name, served, apiBase, apiKey).Ok? && StatusOf(Lines(p)).Ok?
    ensures StatusOf(Lines(p)).value.byHand == []
  {
    hide *;
    NoneSeen(p, before, ln, after);
    ByHandSeen(p, name);
    NoName(name);
    SyncGood(p, name, served, apiBase, apiKey);
    StatusGood(p);
  }

  lemma NoneSeen(p: Parts, before: seq<string>, ln: string, after: seq<string>)
    requires Upper(p) == before + ([ln] + after) && LeavesSection(ln) && Items(before) == []
    ensures HandSeen(p) == [] && RouteNames(HandSeen(p)) == []
  {
    hide LeavesSection, SectionLength, Items, Upper, Middle, Lower, Lost;
    SectionAppend(before, [ln] + after);
    ColumnEnds(ln, after);
    NoneBefore(before, SectionLength(before));
    assert Upper(p)[..SectionLength(before)] == before[..SectionLength(before)];
    assert Upper(p)[|before|] == ln;
    NothingListed();
    LostMeans(p);
    assert SeenLower(p)[Lost(p)..] == [];
  }

  lemma NoName(name: string)
    ensures !Has([], name)
  {
  }

  // ------------------------------------- markers deeper than the item before --

  /** A route indented less than the item after it takes that item in. */
  lemma DeeperSwallowed(route: seq<string>, name: string, t: seq<string>, other: string)
    requires IsEntry(route, name) && IsEntry(t, other) && Lead(t[0]) > Lead(route[0])
    ensures Listed(route + t) == [Route(name, route + t)]
  {
    hide Items, Lead, ItemName;
    var all := route + t;
    ItemNotBlank(t[0]);
    forall k | 0 < k < |all|
      ensures Blank(all[k]) || Lead(all[k]) > Lead(all[0])
    {
      if k >= |route| {
        assert all[k] == t[k - |route|];
      }
    }
    EntryItem(all, name);
  }

  function Copies(route: seq<string>, n: nat): seq<string> {
    if n == 0 then [] else Copies(route, n - 1) + route
  }

  /** Where the last managed item is held open to the route, every identical sync adds the route once more, for ever,
      and status never lists its name. */
  lemma {:induction false} SyncGrows(p: Parts, name: string, served: string, apiBase: string, apiKey: string, n: nat)
    requires Sited(p) && PlainName(name) && !ByHand(p, name)
    requires !Has(Listed(p.managed), name) && HeldOpen(p.managed, Lead(p.begin))
    ensures var route := RouteFor(p, name, served, apiBase, apiKey);
            var now, next := p.(managed := p.managed + Copies(route, n)),
                p.(managed := p.managed + Copies(route, n + 1));
            && Sync(Lines(now), name, served, apiBase, apiKey) == Ok(Edited(true, Lines(next)))
            && StatusOf(Lines(now)).Ok? && StatusOf(Lines(now)).value.managed == RouteNames(Listed(p.managed))
            && name !in StatusOf(Lines(now)).value.managed
  {
    hide *;
    var route := RouteFor(p, name, served, apiBase, apiKey);
    RouteGood(p, name, served, apiBase, apiKey);
    CopiesTaken(p.managed, name, route, n);
    CopiesUnseen(p, name, route, n);
    var now := p.(managed := p.managed + Copies(route, n));
    SyncGood(now, name, served, apiBase, apiKey);
    RouteSame(p, now.managed, name, served, apiBase, apiKey);
    UpdatedNew(now.managed, name, route);
    MoreCopies(p.managed, route, n);
    UpdatedChanges(now.managed, name, route);
    NoIndex(now.managed, name);
    StatusGood(now);
    NotNamed(Listed(p.managed), name);
  }

  lemma NoIndex(ls: seq<string>, name: string)
    requires !Has(Listed(ls), name)
    ensures IndexOf(Listed(ls), name) == |Listed(ls)|
  {
    hide Listed;
  }

  lemma MoreCopies(ls: seq<string>, route: seq<string>, n: nat)
    ensures ls + Copies(route, n) + route == ls + Copies(route, n + 1)
  {
  }

  lemma {:induction false} CopiesTaken(ls: seq<string>, name: string, route: seq<string>, n: nat)
    requires IsEntry(route, name) && route != [] && HeldOpen(ls, Lead(route[0])) && !Has(Listed(ls), name)
    ensures HeldOpen(ls + Copies(route, n), Lead(route[0])) && !Has(Listed(ls + Copies(route, n)), name)
    ensures RouteNames(Listed(ls + Copies(route, n))) == RouteNames(Listed(ls))
  {
    hide *;
    NoCopies(route);
    if n == 0 {
      assert ls + [] == ls;
    } else {
      CopiesTaken(ls, name, route, n - 1);
      var before := ls + Copies(route, n - 1);
      MoreCopies(ls, route, n - 1);
      SwallowedUnnamed(before, route, name);
      var grown := ListedSwallowed(before, route, name);
      HeldIs(before, Lead(route[0]));
      HeldIs(before + route, Lead(route[0]));
    }
  }

  lemma NoCopies(route: seq<string>)
    ensures Copies(route, 0) == []
  {
  }

  lemma {:induction false} CopiesUnseen(p: Parts, name: string, route: seq<string>, n: nat)
    requires Sited(p) && IsEntry(route, name) && Unmarked(route) && route != [] && !ByHand(p, name)
    requires HeldOpen(p.managed, Lead(route[0])) && !Has(Listed(p.managed), name)
    ensures var now := p.(managed := p.managed + Copies(route, n)); Sited(now) && !ByHand(now, name)
  {
    hide *;
    NoCopies(route);
    if n == 0 {
      assert p.managed + [] == p.managed;
    } else {
      CopiesUnseen(p, name, route, n - 1);
      CopiesTaken(p.managed, name, route, n - 1);
      MoreCopies(p.managed, route, n - 1);
      var before := p.(managed := p.managed + Copies(route, n - 1));
      UpdatedNew(before.managed, name, route);
      UpdatedSited(before, name, route);
      NewUnseen(before, name, route);
    }
  }

  /** Such a config, sound but for a begin marker deeper than the route before it. */
  function DeepMarker(other: seq<string>): Parts {
    Parts(["model_list:"], "    " + BEGIN, other, "  " + END, [])
  }

  lemma DeepMarkerGrows(other: string, name: string, served: string, apiBase: string, apiKey: string)
    requires PlainName(other) && PlainName(name) && other != name
    ensures var p := DeepMarker(Render("  ", other, served, apiBase, apiKey));
            var once := Sync(Lines(p), name, served, apiBase, apiKey);
            && Whole(p) && StatusOf(Lines(p)) == Ok(Status([other], [], true))
            && once.Ok? && once.value.changed
            && Sync(once.value.lines, name, served, apiBase, apiKey).Ok?
            && Sync(once.value.lines, name, served, apiBase, apiKey).value.changed
            && StatusOf(once.value.lines).Ok? && StatusOf(once.value.lines).value.managed == [other]
  {
    hide *;
    var t := Render("  ", other, served, apiBase, apiKey);
    var p := DeepMarker(t);
    DeepMarkerWhole(t, other, served, apiBase, apiKey);
    WholeIs(p);
    var route := RouteFor(p, name, served, apiBase, apiKey);
    NoCopies(route);
    assert p.managed + [] == p.managed;
    ByHandListed(p, name);
    SyncGrows(p, name, served, apiBase, apiKey, 0);
    SyncGrows(p, name, served, apiBase, apiKey, 1);
    StatusGood(p);
  }

  lemma DeepMarkerWhole(t: seq<string>, other: string, served: string, apiBase: string, apiKey: string)
    requires PlainName(other) && t == Render("  ", other, served, apiBase, apiKey)
    ensures var p := DeepMarker(t);
            && Whole(p) && HeldOpen(p.managed, Lead(p.begin)) && Listed(p.managed) == [Route(other, t)]
            && HandListing(p) == [] && RouteNames(HandListing(p)) == [] && RouteNames(Listed(p.managed)) == [other]
            && forall name :: name != other ==> !Has(Listed(p.managed), name) && !Has(HandListing(p), name)
  {
    hide *;
    var p := DeepMarker(t);
    DeepTexts();
    DeepIs(t);
    RenderEntry("  ", other, served, apiBase, apiKey);
    EntryStarts(t, other);
    EntryOpen(t, other);
    EntryAlone(t, other);
    MarkerWritten("    ", BEGIN);
    MarkerWritten("  ", END);
    HeldIs(t, 4);
    DeepSited(p, t);
    NothingListed();
    OpenNothing();
    HeldIs([], 4);
    DeepAround(p, t);
    LostMeans(p);
    NoneOf(SeenLower(p), Lost(p));
    WholeIs(p);
    HandIs(p);
    DeepListing(p, other, t);
  }

  lemma DeepTexts()
    ensures AllSpace("  ") && AllSpace("    ") && Indents("  ") && Indents("    ") && |"  "| == 2 && |"    "| == 4
    ensures IsModelList("model_list:")
  {
    hide IsModelList;
    HeadOpens();
  }

  lemma HeadOpens()
    ensures IsModelList("model_list:")
  {
    hide DropSpace;
    assert SECTION == "model_list:" && SECTION[|SECTION|..] == "";
    NothingDropped();
  }

  lemma NothingDropped()
    ensures DropSpace("") == ""
  {
  }

  lemma DeepIs(t: seq<string>)
    ensures DeepMarker(t) == Parts(["model_list:"], "    " + BEGIN, t, "  " + END, [])
  {
  }

  lemma DeepSited(p: Parts, t: seq<string>)
    requires p == Parts(["model_list:"], "    " + BEGIN, t, "  " + END, []) && IsModelList("model_list:")
    requires Strip("    " + BEGIN) == BEGIN && Strip("  " + END) == END && Unmarked(t)
    ensures Sited(p)
  {
    hide *;
    StripsApart();
    DeepMarked(p, t);
    LinesAre(p);
    ListThere([], "model_list:", Inner(p));
    assert [] + ["model_list:"] + Inner(p) == p.front + Inner(p) + p.back;
    SitedIs(p);
  }

  lemma DeepMarked(p: Parts, t: seq<string>)
    requires p == Parts(["model_list:"], "    " + BEGIN, t, "  " + END, [])
    requires Strip("    " + BEGIN) == BEGIN && Strip("  " + END) == END && Unmarked(t)
    requires Strip("model_list:") != BEGIN && Strip("model_list:") != END
    ensures Marked(p)
  {
    hide Strip, BEGIN, END;
  }

  /** The line that opens the list is no marker. */
  lemma StripsApart()
    requires IsModelList("model_list:")
    ensures Strip("model_list:") != BEGIN && Strip("model_list:") != END
  {
    hide IsModelList;
    if Strip("model_list:") == BEGIN || Strip("model_list:") == END {
      MarkerNoList("model_list:");
      assert false;
    }
  }

  /** There is nothing above the block in the list, and nothing below. */
  lemma DeepAround(p: Parts, t: seq<string>)
    requires p == Parts(["model_list:"], "    " + BEGIN, t, "  " + END, []) && IsModelList("model_list:")
    requires OpenDash([]) == None
    ensures SeenUpper(p) == [] && SeenLower(p) == [] && !UpperHeld(p)
  {
    hide IsModelList, BEGIN, END, OpenDash, Middle;
    assert p.front[0] == "model_list:";
    assert Upper(p) == [];
  }

  lemma DeepListing(p: Parts, other: string, t: seq<string>)
    requires HandListing(p) == [] && Listed(p.managed) == [Route(other, t)]
    ensures RouteNames(HandListing(p)) == [] && RouteNames(Listed(p.managed)) == [other]
    ensures forall name :: name != other ==> !Has(Listed(p.managed), name) && !Has(HandListing(p), name)
  {
    hide HandListing, Listed;
  }
}
