/** py/gateway.py on the lines of a config: the managed block, the list items
    inside and outside it, and sync, remove and adopt. */
module Gateway {
  import opened Prelude
  import opened Text

  const BEGIN := "# >>> " + "dgx-serve managed: rack up and rack down keep the routes in here"
  const END := "# <<< " + "dgx-serve managed"
  const KEY := "model_name:"
  const SECTION := "model_list:"

  /** BlockLost is no GatewayError: adopt of an entry that holds both markers fails on their absence. */
  datatype Failure = NoModelList | DamagedMarkers | WrittenByHand | NoSuchRoute | BlockLost

  /** Line numbers of the begin and end markers. */
  datatype Span = Span(first: nat, last: nat)

  /** A list item: its model_name, where it starts, and its lines. */
  datatype Entry = Entry(name: string, at: nat, text: seq<string>)

  datatype Edited = Edited(changed: bool, lines: seq<string>)

  datatype Status = Status(managed: seq<string>, byHand: seq<string>, markers: bool)

  // ---------------------------------------------------------------- lines --

  predicate IsQuote(c: char) { c == '\'' || c == '"' }

  /** How many characters of s, from the start, can be part of a name. */
  function NameRun(s: string): (n: nat)
    ensures n <= |s|
    ensures n < |s| ==> IsQuote(s[n]) || s[n] == '#' || IsSpace(s[n])
  {
    if s == "" || IsQuote(s[0]) || s[0] == '#' || IsSpace(s[0]) then 0 else 1 + NameRun(s[1..])
  }

  function DropSpace(s: string): string { s[Lead(s)..] }

  function DropQuote(s: string): string { if s != "" && IsQuote(s[0]) then s[1..] else s }

  /** The rest of an item line after "-": its name, or None when the line is no item. */
  function NameAfterDash(s: string): Option<string> {
    var t := DropSpace(s);
    if !(KEY <= t) then None
    else
      var u := DropQuote(DropSpace(t[|KEY|..]));
      var n := NameRun(u);
      var rest := DropSpace(DropQuote(u[n..]));
      if n > 0 && (rest == "" || rest[0] == '#') then Some(u[..n]) else None
  }

  /** The ITEM pattern: the model_name of a list item's first line. */
  function ItemName(ln: string): Option<string> {
    var s := DropSpace(ln);
    if s != "" && s[0] == '-' then NameAfterDash(s[1..]) else None
  }

  predicate IsModelList(ln: string) {
    SECTION <= ln && (var rest := DropSpace(ln[|SECTION|..]); rest == "" || rest[0] == '#')
  }

  /** A line at column 0 that is no comment: it ends the model_list section. */
  predicate LeavesSection(ln: string) {
    ln != "" && ln[0] != ' ' && ln[0] != '\t' && ln[0] != '#'
  }

  // ---------------------------------------------------------------- items --

  /** How many lines belong to an item indented ind, given the lines after its first. */
  function Body(ls: seq<string>, ind: nat): (n: nat)
    ensures n <= |ls|
  {
    if ls == [] || (!Blank(ls[0]) && Lead(ls[0]) <= ind) then 0 else 1 + Body(ls[1..], ind)
  }

  /** How many lines are left when the blank ones at the end are dropped. */
  function Core(ls: seq<string>): (n: nat)
    ensures n <= |ls|
  {
    if ls == [] then 0 else if Blank(ls[|ls| - 1]) then Core(ls[..|ls| - 1]) else |ls|
  }

  function Moved(es: seq<Entry>, d: nat): seq<Entry> {
    seq(|es|, k requires 0 <= k < |es| => es[k].(at := es[k].at + d))
  }

  /** Entries that lie within so many lines. */
  predicate Within(es: seq<Entry>, n: nat) {
    forall k :: 0 <= k < |es| ==> es[k].text != [] && es[k].at + |es[k].text| <= n
  }

  /** The list items of some lines, numbered from the first of them. */
  function Items(ls: seq<string>): (es: seq<Entry>)
    ensures Within(es, |ls|)
    decreases |ls|
  {
    if ls == [] then []
    else
      var name := ItemName(ls[0]);
      if name == None then
        MovedWithin(Items(ls[1..]), 1, |ls| - 1);
        Moved(Items(ls[1..]), 1)
      else
        var j := 1 + Body(ls[1..], Lead(ls[0]));
        ItemHead(ls, j);
        HeadWithin(Entry(name.value, 0, ls[..Core(ls[..j])]), Items(ls[j..]), j, |ls| - j);
        [Entry(name.value, 0, ls[..Core(ls[..j])])] + Moved(Items(ls[j..]), j)
  }

  lemma ItemHead(ls: seq<string>, j: nat)
    requires 1 <= j <= |ls| && ItemName(ls[0]).Some?
    ensures 1 <= Core(ls[..j])
  {
    hide ItemName, Core, Blank;
    ItemNotBlank(ls[0]);
    CoreOfItem(ls[..j]);
  }

  lemma HeadWithin(e: Entry, rest: seq<Entry>, j: nat, n: nat)
    requires e.at == 0 && 1 <= |e.text| <= j && Within(rest, n)
    ensures Within([e] + Moved(rest, j), n + j)
  {
    hide Moved;
    MovedWithin(rest, j, n);
  }

  lemma MovedWithin(es: seq<Entry>, d: nat, n: nat)
    requires Within(es, n)
    ensures Within(Moved(es, d), n + d)
  {
  }

  /** The inner loop: where the item that starts at i ends (the line after its body, and its last full line). */
  method ItemEnd(lines: seq<string>, i: nat, hi: nat) returns (j: nat, last: nat)
    requires i < hi <= |lines| && !Blank(lines[i])
    ensures i <= last < j <= hi
    ensures j - i == 1 + Body(lines[i + 1..hi], Lead(lines[i]))
    ensures last - i + 1 == Core(lines[i..j])
  {
    hide Core, Body, Lead, Blank;
    var ind := Lead(lines[i]);
    last, j := i, i + 1;
    CoreNext(lines, i, i + 1);
    while j < hi
      invariant i < j <= hi && i <= last < j
      invariant Body(lines[i + 1..hi], ind) == j - i - 1 + Body(lines[j..hi], ind)
      invariant Core(lines[i..j]) == last - i + 1
    {
      var ln := lines[j];
      BodyNext(lines, j, hi, ind);
      CoreNext(lines, i, j + 1);
      if !Blank(ln) {
        if Lead(ln) <= ind {
          break;
        }
        last := j;
      }
      j := j + 1;
    }
    BodyNext(lines, j, hi, ind);
  }

  lemma BodyNext(lines: seq<string>, j: nat, hi: nat, ind: nat)
    requires j <= hi <= |lines|
    ensures Body(lines[j..hi], ind)
         == if j == hi || (!Blank(lines[j]) && Lead(lines[j]) <= ind) then 0 else 1 + Body(lines[j + 1..hi], ind)
  {
    if j < hi {
      assert lines[j..hi][1..] == lines[j + 1..hi];
    }
  }

  lemma CoreNext(lines: seq<string>, i: nat, j: nat)
    requires i < j <= |lines|
    ensures Core(lines[i..j]) == if Blank(lines[j - 1]) then Core(lines[i..j - 1]) else j - i
  {
    assert lines[i..j][..j - i - 1] == lines[i..j - 1];
  }

  /** items(lines, lo, hi). */
  method FindItems(lines: seq<string>, lo: nat, hi: nat) returns (out: seq<Entry>)
    requires lo <= hi <= |lines|
    ensures out == Moved(Items(lines[lo..hi]), lo)
  {
    hide Items, Body, Core, ItemName, Moved;
    out := [];
    var i := lo;
    MovedSame(Items(lines[lo..hi]), lo);
    while i < hi
      invariant lo <= i <= hi
      invariant out + Moved(Items(lines[i..hi]), i) == Moved(Items(lines[lo..hi]), lo)
    {
      ItemsAt(lines, i, hi);
      if ItemName(lines[i]) == None {
        i := i + 1;
        continue;
      }
      ItemNotBlank(lines[i]);
      var j, last := ItemEnd(lines, i, hi);
      var e := Entry(ItemName(lines[i]).value, i, lines[i..last + 1]);
      OneFound(out, e, Moved(Items(lines[j..hi]), j));
      out := out + [e];
      i := j;
    }
    NoItems();
    assert lines[i..hi] == [];
    MovedNone(i);
  }

  lemma OneFound(out: seq<Entry>, e: Entry, rest: seq<Entry>)
    ensures out + ([e] + rest) == out + [e] + rest
  {
  }

  lemma MovedNone(d: nat)
    ensures Moved([], d) == []
  {
  }

  /** The items from i on, in the numbering of all the lines. */
  lemma ItemsAt(lines: seq<string>, i: nat, hi: nat)
    requires i < hi <= |lines|
    ensures ItemName(lines[i]) == None ==> Moved(Items(lines[i..hi]), i) == Moved(Items(lines[i + 1..hi]), i + 1)
    ensures ItemName(lines[i]).Some? ==>
              var j := i + 1 + Body(lines[i + 1..hi], Lead(lines[i]));
              Moved(Items(lines[i..hi]), i)
              == [Entry(ItemName(lines[i]).value, i, lines[i..i + Core(lines[i..j])])] + Moved(Items(lines[j..hi]), j)
  {
    hide ItemName, Body, Core, Items;
    var rest := lines[i..hi];
    ItemsStep(rest);
    assert rest[1..] == lines[i + 1..hi];
    if ItemName(lines[i]) == None {
      MovedTwice(Items(rest[1..]), 1, i);
    } else {
      var j := 1 + Body(rest[1..], Lead(rest[0]));
      assert rest[..j] == lines[i..i + j] && rest[j..] == lines[i + j..hi];
      var text := rest[..Core(rest[..j])];
      assert text == lines[i..i + Core(rest[..j])];
      MovedTwice(Items(rest[j..]), j, i);
      MovedAppend([Entry(ItemName(lines[i]).value, 0, text)], Moved(Items(rest[j..]), j), i);
    }
  }

  lemma NoItems()
    ensures Items([]) == []
  {
  }

  lemma ItemsStep(ls: seq<string>)
    requires ls != []
    ensures ItemName(ls[0]) == None ==> Items(ls) == Moved(Items(ls[1..]), 1)
    ensures ItemName(ls[0]).Some? ==>
              var j := 1 + Body(ls[1..], Lead(ls[0]));
              Items(ls) == [Entry(ItemName(ls[0]).value, 0, ls[..Core(ls[..j])])] + Moved(Items(ls[j..]), j)
  {
  }

  lemma ItemNotBlank(ln: string)
    requires ItemName(ln).Some?
    ensures !Blank(ln)
  {
  }

  lemma {:induction false} CoreOfItem(ls: seq<string>)
    requires ls != [] && !Blank(ls[0])
    ensures 1 <= Core(ls)
  {
    if |ls| > 1 {
      CoreOfItem(ls[..|ls| - 1]);
    }
  }

  lemma MovedSame(es: seq<Entry>, d: nat)
    ensures [] + Moved(es, d) == Moved(es, d)
    ensures Moved(es, 0) == es
  {
  }

  lemma MovedTwice(es: seq<Entry>, a: nat, b: nat)
    ensures Moved(Moved(es, a), b) == Moved(es, a + b)
  {
  }

  lemma MovedAppend(a: seq<Entry>, b: seq<Entry>, d: nat)
    ensures Moved(a + b, d) == Moved(a, d) + Moved(b, d)
  {
  }

  // ------------------------------------------------------------- sections --

  /** The first line that opens model_list. */
  function ModelListAt(lines: seq<string>): Option<nat> {
    if lines == [] then None
    else if IsModelList(lines[0]) then Some(0)
    else
      var later := ModelListAt(lines[1..]);
      if later.Some? then Some(later.value + 1) else None
  }

  /** How many of the lines after model_list: belong to it, up to its last that is not blank. */
  function SectionLength(ls: seq<string>): (n: nat)
    ensures n <= |ls|
  {
    if ls == [] || LeavesSection(ls[0]) then 0
    else
      var n := SectionLength(ls[1..]);
      if n > 0 || !Blank(ls[0]) then n + 1 else 0
  }

  /** The indentation of the section's first item, or two spaces. */
  function ItemIndent(ls: seq<string>): string {
    if ls == [] || LeavesSection(ls[0]) then "  "
    else if ItemName(ls[0]).Some? then ls[0][..Lead(ls[0])]
    else ItemIndent(ls[1..])
  }

  method FindModelList(lines: seq<string>) returns (at: Option<nat>)
    ensures at == ModelListAt(lines)
    ensures at.Some? ==> at.value < |lines|
  {
    for i := 0 to |lines|
      invariant ModelListAt(lines) ==
        (var later := ModelListAt(lines[i..]); if later.Some? then Some(later.value + i) else None)
    {
      assert lines[i..][1..] == lines[i + 1..];
      if IsModelList(lines[i]) {
        return Some(i);
      }
    }
    return None;
  }

  /** section_end: the line after model_list's last item. */
  method FindSectionEnd(lines: seq<string>, start: nat) returns (end: nat)
    requires start < |lines|
    ensures end == start + 1 + SectionLength(lines[start + 1..])
  {
    end := start + 1;
    var i := start + 1;
    while i < |lines|
      invariant start < i <= |lines| && start + 1 <= end <= i
      invariant start + 1 + SectionLength(lines[start + 1..])
             == (if SectionLength(lines[i..]) > 0 then i + SectionLength(lines[i..]) else end)
    {
      assert lines[i..][1..] == lines[i + 1..];
      if LeavesSection(lines[i]) {
        break;
      }
      if !Blank(lines[i]) {
        end := i + 1;
      }
      i := i + 1;
    }
  }

  method FindItemIndent(lines: seq<string>, start: nat) returns (ind: string)
    requires start < |lines|
    ensures ind == ItemIndent(lines[start + 1..])
  {
    hide ItemName, Lead;
    var i := start + 1;
    while i < |lines|
      invariant start < i <= |lines|
      invariant ItemIndent(lines[start + 1..]) == ItemIndent(lines[i..])
    {
      assert lines[i..][1..] == lines[i + 1..];
      if LeavesSection(lines[i]) {
        break;
      }
      if ItemName(lines[i]).Some? {
        return lines[i][..Lead(lines[i])];
      }
      i := i + 1;
    }
    return "  ";
  }

  // -------------------------------------------------------- managed block --

  /** The line numbers of the lines that strip to a marker. */
  function Where(lines: seq<string>, marker: string): (at: seq<nat>)
    ensures forall k :: 0 <= k < |at| ==> at[k] < |lines| && Strip(lines[at[k]]) == marker
  {
    if lines == [] then []
    else Where(lines[..|lines| - 1], marker) + (if Strip(lines[|lines| - 1]) == marker then [|lines| - 1] else [])
  }

  function BlockOf(lines: seq<string>): (r: Result<Option<Span>, Failure>)
    ensures r.Ok? && r.value.Some? ==> r.value.value.first < r.value.value.last < |lines|
  {
    assert BEGIN[2] != END[2];
    var b, e := Where(lines, BEGIN), Where(lines, END);
    if b == [] && e == [] then Ok(None)
    else if |b| != 1 || |e| != 1 || e[0] < b[0] then Err(DamagedMarkers)
    else Ok(Some(Span(b[0], e[0])))
  }

  datatype Ensured = Ensured(lines: seq<string>, span: Span)

  function EnsureBlock(lines: seq<string>): (r: Result<Ensured, Failure>)
    ensures r.Ok? ==> r.value.span.first < r.value.span.last < |r.value.lines|
  {
    var b := BlockOf(lines);
    if b.Err? then Err(b.error)
    else if b.value.Some? then Ok(Ensured(lines, b.value.value))
    else
      var at := ModelListAt(lines);
      if at == None then Err(NoModelList)
      else
        AtWithin(lines);
        var start, ind := at.value, ItemIndent(lines[at.value + 1..]);
        Ok(Ensured(lines[..start + 1] + [ind + BEGIN, ind + END] + lines[start + 1..], Span(start + 1, start + 2)))
  }

  lemma AtWithin(lines: seq<string>)
    ensures ModelListAt(lines).Some? ==> ModelListAt(lines).value < |lines|
  {
  }

  predicate Inside(e: Entry, span: Option<Span>) {
    span.Some? && span.value.first < e.at < span.value.last
  }

  function NotInside(es: seq<Entry>, span: Option<Span>): (out: seq<Entry>)
    ensures forall k :: 0 <= k < |out| ==> out[k] in es
  {
    if es == [] then []
    else NotInside(es[..|es| - 1], span) + (if Inside(es[|es| - 1], span) then [] else [es[|es| - 1]])
  }

  /** The items of model_list outside the block. */
  function Outside(lines: seq<string>, span: Option<Span>): (r: Result<seq<Entry>, Failure>)
    ensures r.Ok? ==> Within(r.value, |lines|)
  {
    var at := ModelListAt(lines);
    if at == None then Err(NoModelList)
    else
      AtWithin(lines);
      var start := at.value;
      var n := SectionLength(lines[start + 1..]);
      Ok(NotInside(Moved(Items(lines[start + 1..start + 1 + n]), start + 1), span))
  }

  /** The items between the markers. */
  function Managed(lines: seq<string>, span: Span): (es: seq<Entry>)
    requires span.first < span.last < |lines|
    ensures Within(es, |lines|)
  {
    Moved(Items(lines[span.first + 1..span.last]), span.first + 1)
  }

  /** The first entry of a name. */
  function Named(es: seq<Entry>, name: string): (e: Option<Entry>)
    ensures e.Some? ==> e.value in es && e.value.name == name
    ensures e.None? ==> forall k :: 0 <= k < |es| ==> es[k].name != name
  {
    if es == [] then None else if es[0].name == name then Some(es[0]) else Named(es[1..], name)
  }

  function Render(ind: string, name: string, served: string, apiBase: string, apiKey: string): seq<string> {
    [ind + "- model_name: " + name,
     ind + "  litellm_params:",
     ind + "    model: openai/" + served,
     ind + "    api_base: " + apiBase,
     ind + "    api_key: " + apiKey]
  }

  function Names(es: seq<Entry>): seq<string> {
    seq(|es|, k requires 0 <= k < |es| => es[k].name)
  }

  function StatusOf(lines: seq<string>): Result<Status, Failure> {
    var b := BlockOf(lines);
    if b.Err? then Err(b.error)
    else
      var hand := Outside(lines, b.value);
      if hand.Err? then Err(hand.error)
      else Ok(Status(if b.value.Some? then Names(Managed(lines, b.value.value)) else [],
                     Names(hand.value), b.value.Some?))
  }

  /** The lines with some of them, from first up to after, replaced. */
  function Replaced(lines: seq<string>, first: nat, after: nat, text: seq<string>): seq<string>
    requires first <= after <= |lines|
  {
    lines[..first] + text + lines[after..]
  }

  function Sync(lines: seq<string>, name: string, served: string, apiBase: string, apiKey: string)
      : Result<Edited, Failure> {
    var ensured := EnsureBlock(lines);
    if ensured.Err? then Err(ensured.error)
    else
      var ls, b := ensured.value.lines, ensured.value.span;
      var hand := Outside(ls, Some(b));
      if hand.Err? then Err(hand.error)
      else if Named(hand.value, name).Some? then Err(WrittenByHand)
      else
        var route := Render(ls[b.first][..Lead(ls[b.first])], name, served, apiBase, apiKey);
        var mine := Named(Managed(ls, b), name);
        if mine.Some? then
          if mine.value.text == route then Ok(Edited(false, lines))
          else Ok(Edited(true, Replaced(ls, mine.value.at, mine.value.at + |mine.value.text|, route)))
        else Ok(Edited(true, Replaced(ls, b.last, b.last, route)))
  }

  function Remove(lines: seq<string>, name: string): Result<Edited, Failure> {
    var b := BlockOf(lines);
    if b.Err? then Err(b.error)
    else if b.value == None then Ok(Edited(false, lines))
    else
      var mine := Named(Managed(lines, b.value.value), name);
      if mine.Some?
      then Ok(Edited(true, Replaced(lines, mine.value.at, mine.value.at + |mine.value.text|, [])))
      else Ok(Edited(false, lines))
  }

  function Adopt(lines: seq<string>, name: string): Result<Edited, Failure> {
    var ensured := EnsureBlock(lines);
    if ensured.Err? then Err(ensured.error)
    else
      var ls, b := ensured.value.lines, ensured.value.span;
      var hand := Outside(ls, Some(b));
      if hand.Err? then Err(hand.error)
      else
        var mine := Named(hand.value, name);
        if mine == None then Err(NoSuchRoute)
        else
          var rest := Replaced(ls, mine.value.at, mine.value.at + |mine.value.text|, []);
          var b2 := BlockOf(rest);
          if b2.Err? then Err(b2.error)
          else if b2.value == None then Err(BlockLost)
          else Ok(Edited(true, Replaced(rest, b2.value.value.last, b2.value.value.last, mine.value.text)))
  }

  // ------------------------------------------------------------- commands --

  method FindNamed(es: seq<Entry>, name: string) returns (e: Option<Entry>)
    ensures e == Named(es, name)
  {
    for k := 0 to |es|
      invariant Named(es, name) == Named(es[k..], name)
    {
      assert es[k..][1..] == es[k + 1..];
      if es[k].name == name {
        return Some(es[k]);
      }
    }
    return None;
  }

  /** outside(lines, b). */
  method FindOutside(lines: seq<string>, span: Option<Span>) returns (r: Result<seq<Entry>, Failure>)
    ensures r == Outside(lines, span)
  {
    hide Items, SectionLength, ModelListAt;
    var at := FindModelList(lines);
    if at == None {
      return Err(NoModelList);
    }
    var end := FindSectionEnd(lines, at.value);
    var found := FindItems(lines, at.value + 1, end);
    var out: seq<Entry> := [];
    for k := 0 to |found|
      invariant out == NotInside(found[..k], span)
    {
      assert found[..k + 1][..k] == found[..k];
      if !Inside(found[k], span) {
        out := out + [found[k]];
      }
    }
    assert found[..|found|] == found;
    r := Ok(out);
  }

  method MakeBlock(lines: seq<string>) returns (r: Result<Ensured, Failure>)
    ensures r == EnsureBlock(lines)
  {
    hide ModelListAt, ItemIndent, Where, IsModelList, Strip;
    var b := BlockOf(lines);
    if b.Err? {
      return Err(b.error);
    }
    if b.value.Some? {
      return Ok(Ensured(lines, b.value.value));
    }
    var at := FindModelList(lines);
    if at == None {
      return Err(NoModelList);
    }
    var start := at.value;
    var ind := FindItemIndent(lines, start);
    r := Ok(Ensured(lines[..start + 1] + [ind + BEGIN, ind + END] + lines[start + 1..], Span(start + 1, start + 2)));
  }

  method SyncConfig(lines: seq<string>, name: string, served: string, apiBase: string, apiKey: string)
    returns (r: Result<Edited, Failure>)
    ensures r == Sync(lines, name, served, apiBase, apiKey)
  {
    hide EnsureBlock, Outside, Items, Named, Render;
    var ensured := MakeBlock(lines);
    if ensured.Err? {
      return Err(ensured.error);
    }
    var ls, b := ensured.value.lines, ensured.value.span;
    var hand := FindOutside(ls, Some(b));
    if hand.Err? {
      return Err(hand.error);
    }
    var byHand := FindNamed(hand.value, name);
    if byHand.Some? {
      return Err(WrittenByHand);
    }
    var route := Render(ls[b.first][..Lead(ls[b.first])], name, served, apiBase, apiKey);
    var managed := FindItems(ls, b.first + 1, b.last);
    var mine := FindNamed(managed, name);
    if mine.Some? {
      if mine.value.text == route {
        return Ok(Edited(false, lines));
      }
      return Ok(Edited(true, Replaced(ls, mine.value.at, mine.value.at + |mine.value.text|, route)));
    }
    r := Ok(Edited(true, Replaced(ls, b.last, b.last, route)));
  }

  method RemoveFromConfig(lines: seq<string>, name: string) returns (r: Result<Edited, Failure>)
    ensures r == Remove(lines, name)
  {
    hide Items, Named, BlockOf, Moved, Within;
    var b := BlockOf(lines);
    if b.Err? {
      return Err(b.error);
    }
    if b.value == None {
      return Ok(Edited(false, lines));
    }
    var managed := FindItems(lines, b.value.value.first + 1, b.value.value.last);
    assert managed == Managed(lines, b.value.value);
    var mine := FindNamed(managed, name);
    if mine == None {
      return Ok(Edited(false, lines));
    }
    NamedWithin(managed, name, |lines|);
    r := Ok(Edited(true, Replaced(lines, mine.value.at, mine.value.at + |mine.value.text|, [])));
  }

  lemma NamedWithin(es: seq<Entry>, name: string, n: nat)
    requires Within(es, n) && Named(es, name).Some?
    ensures Named(es, name).value.at + |Named(es, name).value.text| <= n
  {
  }

  method AdoptInConfig(lines: seq<string>, name: string) returns (r: Result<Edited, Failure>)
    ensures r == Adopt(lines, name)
  {
    hide EnsureBlock, Outside, Items, Named, BlockOf, Where, Within;
    var ensured := MakeBlock(lines);
    if ensured.Err? {
      return Err(ensured.error);
    }
    var ls, b := ensured.value.lines, ensured.value.span;
    var hand := FindOutside(ls, Some(b));
    if hand.Err? {
      return Err(hand.error);
    }
    var mine := FindNamed(hand.value, name);
    if mine == None {
      return Err(NoSuchRoute);
    }
    NamedWithin(hand.value, name, |ls|);
    var rest := Replaced(ls, mine.value.at, mine.value.at + |mine.value.text|, []);
    var b2 := BlockOf(rest);
    if b2.Err? {
      return Err(b2.error);
    }
    if b2.value == None {
      return Err(BlockLost);
    }
    r := Ok(Edited(true, Replaced(rest, b2.value.value.last, b2.value.value.last, mine.value.text)));
  }
}
