/** py/recipes.py's check_file and checked_closure: the lexical rules for one
    recipe file, and the search over every file it sources. */
module Closure {
  import opened Prelude
  import opened Scanner

  // ------------------------------------------------------------- problems --

  datatype Level = Error | Warning

  datatype Message =
    | CannotRead
    | Lexical(at: int)
    | SourceExactlyOne
    | OnlyOwnFolder(target: string)
    | SourcesOther(target: string)
    | IsCommand(head: string)
    | WouldRun(word: string)
    | BelongsInPlatformFile
    | DoesNotExist(target: string)

  datatype Item = Item(level: Level, path: string, line: int, message: Message)

  function Added(items: seq<Item>, item: Item): seq<Item> {
    if item in items then items else items + [item]
  }

  function AddedAll(items: seq<Item>, more: seq<Item>): seq<Item> {
    if more == [] then items else Added(AddedAll(items, more[..|more| - 1]), more[|more| - 1])
  }

  function Errors(items: seq<Item>): seq<Item> {
    if items == [] then []
    else Errors(items[..|items| - 1]) + (if items[|items| - 1].level == Error then [items[|items| - 1]] else [])
  }

  class Problems {
    var items: seq<Item>

    constructor ()
      ensures items == []
    {
      items := [];
    }

    method Add(item: Item)
      modifies this
      ensures items == Added(old(items), item)
    {
      if item !in items {
        items := items + [item];
      }
    }
  }

  // ---------------------------------------------------------- file system --

  /** The files a check can see: what can be read, what exists, what is there even as a broken link. */
  datatype World = World(text: map<string, string>, exists_: set<string>, entries: set<string>,
                         root: string, config: string, dirname: string -> string)

  predicate StartsWith(s: string, prefix: string) { prefix <= s }

  predicate EndsWith(s: string, suffix: string) { |suffix| <= |s| && s[|s| - |suffix|..] == suffix }

  predicate Contains(s: string, part: string) {
    StartsWith(s, part) || (s != "" && Contains(s[1..], part))
  }

  /** os.path.join of two parts. */
  function PathJoin(a: string, b: string): string {
    if StartsWith(b, "/") then b else if a == "" || EndsWith(a, "/") then a + b else a + "/" + b
  }

  /** The text after the first slash, "" when there is none. */
  function AfterSlash(s: string): (rest: string)
    ensures s != "" ==> |rest| < |s|
  {
    if s == "" then "" else if s[0] == '/' then s[1..] else AfterSlash(s[1..])
  }

  function BeforeSlash(s: string): string {
    if s == "" || s[0] == '/' then "" else [s[0]] + BeforeSlash(s[1..])
  }

  function BaseName(s: string): string
    decreases |s|
  {
    if '/' in s then BaseName(AfterSlash(s)) else s
  }

  function Unquote(w: string): string {
    if |w| >= 2 && w[0] == w[|w| - 1] && w[0] in "'\"" then w[1..|w| - 1] else w
  }

  function ParentFile(world: World, target: string): string {
    var entry := BeforeSlash(AfterSlash(target));
    if world.config != "" && PathJoin(PathJoin(world.config, "recipes"), entry) in world.entries
    then PathJoin(world.config, target)
    else PathJoin(world.root, target)
  }

  predicate IsPathChar(c: char) {
    'A' <= c <= 'Z' || 'a' <= c <= 'z' || '0' <= c <= '9' || c in "._/-"
  }

  /** ^recipes/[A-Za-z0-9._/-]+\.env$, whose $ also matches before one last newline. */
  predicate IsParentTarget(t: string) {
    && StartsWith(Chomped(t), "recipes/") && EndsWith(Chomped(t), ".env") && |Chomped(t)| > 12
    && forall k :: 8 <= k < |Chomped(t)| - 4 ==> IsPathChar(Chomped(t)[k])
  }

  /** Without one last newline. */
  function Chomped(t: string): string { if EndsWith(t, "\n") then t[..|t| - 1] else t }

  // ----------------------------------------------------------- check_file --

  /** What one statement, or one file, is found to hold. */
  datatype Report = Report(items: seq<Item>, sources: seq<string>)

  function SourceReport(world: World, path: string, dir: string, st: Stmt): Report {
    if |st.words| != 2 then Report([Item(Error, path, st.line, SourceExactlyOne)], [])
    else
      var target := Unquote(st.words[1]);
      if StartsWith(target, "$RECIPE_DIR/") || StartsWith(target, "${RECIPE_DIR}/") then
        var rel := AfterSlash(target);
        if '/' in rel || !EndsWith(rel, ".env") then Report([Item(Error, path, st.line, OnlyOwnFolder(target))], [])
        else Report([], [PathJoin(dir, rel)])
      else if IsParentTarget(target) && !Contains(target, "..") then Report([], [ParentFile(world, target)])
      else Report([Item(Error, path, st.line, SourcesOther(target))], [])
  }

  /** The first word that is no assignment, if any. */
  function FirstCommand(words: seq<string>): Option<string> {
    if words == [] then None
    else if AssignLength(words[0]) == 0 then Some(words[0])
    else FirstCommand(words[1..])
  }

  function StmtReport(world: World, path: string, dir: string, st: Stmt): Report
    requires st.words != []
  {
    var head := st.words[0];
    if head == "." || head == "source" then SourceReport(world, path, dir, st)
    else if AssignLength(head) == 0 then Report([Item(Error, path, st.line, IsCommand(head))], [])
    else if EndsWith(head, "(") then
      Report(if head[..NameRun(head)] == "SERVE_ARGS" && BaseName(path) == "model.env"
             then [Item(Warning, path, st.line, BelongsInPlatformFile)] else [], [])
    else
      var command := FirstCommand(st.words[1..]);
      Report(if command.Some? then [Item(Error, path, st.line, WouldRun(command.value))] else [], [])
  }

  predicate Spoken(stmts: seq<Stmt>) {
    forall k :: 0 <= k < |stmts| ==> stmts[k].words != []
  }

  function StmtsReport(world: World, path: string, dir: string, stmts: seq<Stmt>): Report
    requires Spoken(stmts)
  {
    if stmts == [] then Report([], [])
    else
      var before := StmtsReport(world, path, dir, stmts[..|stmts| - 1]);
      var last := StmtReport(world, path, dir, stmts[|stmts| - 1]);
      Report(before.items + last.items, before.sources + last.sources)
  }

  lemma {:induction false} RunSpoken(text: string)
    ensures Run(START, text).Lexer? ==> Spoken(Run(START, text).stmts)
  {
    if text != "" {
      hide OpensArray;
      RunSpoken(text[..|text| - 1]);
    }
  }

  lemma AcceptSpoken(text: string)
    ensures Accept(text).Ok? ==> Spoken(Accept(text).value)
  {
    RunSpoken(text);
  }

  function FileReport(world: World, path: string, dir: string): Report {
    if path !in world.text then Report([Item(Error, path, 0, CannotRead)], [])
    else
      var scanned := Accept(world.text[path]);
      AcceptSpoken(world.text[path]);
      if scanned.Err? then Report([Item(Error, path, 0, Lexical(scanned.error))], [])
      else StmtsReport(world, path, dir, scanned.value)
  }

  method CheckStmt(world: World, path: string, dir: string, st: Stmt, problems: Problems) returns (sources: seq<string>)
    requires st.words != []
    modifies problems
    ensures problems.items == AddedAll(old(problems.items), StmtReport(world, path, dir, st).items)
    ensures sources == StmtReport(world, path, dir, st).sources
  {
    sources := [];
    var head := st.words[0];
    if head == "." || head == "source" {
      var r := SourceReport(world, path, dir, st);
      if r.items != [] {
        problems.Add(r.items[0]);
      }
      return r.sources;
    }
    if AssignLength(head) == 0 {
      problems.Add(Item(Error, path, st.line, IsCommand(head)));
      return;
    }
    if EndsWith(head, "(") {
      if head[..NameRun(head)] == "SERVE_ARGS" && BaseName(path) == "model.env" {
        problems.Add(Item(Warning, path, st.line, BelongsInPlatformFile));
      }
      return;
    }
    var k := 1;
    while k < |st.words|
      invariant 1 <= k <= |st.words|
      invariant FirstCommand(st.words[1..]) == FirstCommand(st.words[k..])
      invariant problems.items == old(problems.items)
    {
      if AssignLength(st.words[k]) == 0 {
        problems.Add(Item(Error, path, st.line, WouldRun(st.words[k])));
        return;
      }
      assert st.words[k..][1..] == st.words[k + 1..];
      k := k + 1;
    }
  }

  lemma {:induction false} AddedAllAppend(items: seq<Item>, a: seq<Item>, b: seq<Item>)
    ensures AddedAll(items, a + b) == AddedAll(AddedAll(items, a), b)
  {
    if b == [] {
      assert a + b == a;
    } else {
      assert (a + b)[..|a + b| - 1] == a + b[..|b| - 1];
      AddedAllAppend(items, a, b[..|b| - 1]);
    }
  }

  method CheckFile(world: World, path: string, dir: string, problems: Problems) returns (sources: seq<string>)
    modifies problems
    ensures problems.items == AddedAll(old(problems.items), FileReport(world, path, dir).items)
    ensures sources == FileReport(world, path, dir).sources
  {
    hide AddedAll, StmtReport, Accept;
    sources := [];
    ghost var items := problems.items;
    AddedOne(items, Item(Error, path, 0, CannotRead));
    AddedNone(items);
    if path !in world.text {
      problems.Add(Item(Error, path, 0, CannotRead));
      return;
    }
    var scanned := Scan(world.text[path]);
    AcceptSpoken(world.text[path]);
    if scanned.Err? {
      AddedOne(items, Item(Error, path, 0, Lexical(scanned.error)));
      problems.Add(Item(Error, path, 0, Lexical(scanned.error)));
      return;
    }
    var stmts := scanned.value;
    for k := 0 to |stmts|
      invariant problems.items == AddedAll(items, StmtsReport(world, path, dir, stmts[..k]).items)
      invariant sources == StmtsReport(world, path, dir, stmts[..k]).sources
    {
      assert stmts[..k + 1][..k] == stmts[..k];
      AddedAllAppend(items, StmtsReport(world, path, dir, stmts[..k]).items,
                     StmtReport(world, path, dir, stmts[k]).items);
      var more := CheckStmt(world, path, dir, stmts[k], problems);
      sources := sources + more;
    }
    assert stmts[..|stmts|] == stmts;
  }

  lemma AddedOne(items: seq<Item>, item: Item)
    ensures AddedAll(items, [item]) == Added(items, item)
  {
    assert [item][..0] == [];
  }

  lemma AddedNone(items: seq<Item>)
    ensures AddedAll(items, []) == items
  {
  }

  // -------------------------------------------------------- source graph --

  /** One closure check: of a flat recipe every file is read as in the recipe's folder, otherwise
      every file but the first as in its own. */
  datatype Search = Search(world: World, flat: bool, top: string, topDir: string)
  {
    function Dir(path: string): string {
      if flat || path == top then topDir else world.dirname(path)
    }

    function Report(path: string): Report {
      FileReport(world, path, Dir(path))
    }

    function Missing(path: string): seq<Item> {
      MissingOf(path, Report(path).sources)
    }

    function MissingOf(path: string, sources: seq<string>): seq<Item> {
      if sources == [] then []
      else
        var s := sources[|sources| - 1];
        MissingOf(path, sources[..|sources| - 1])
        + (if s in world.exists_ then [] else [Item(Error, path, 0, DoesNotExist(s))])
    }

    /** Everything wrong with one file. */
    function Findings(path: string): set<Item> {
      (set it | it in Report(path).items) + (set it | it in Missing(path))
    }

    function FindingsOf(paths: set<string>): set<Item> {
      set path, it | path in paths && it in Findings(path) :: it
    }

    /** path sources next, which exists. */
    predicate Edge(path: string, next: string) {
      next in Report(path).sources && next in world.exists_
    }

    /** A chain of source lines, each to a file that exists. */
    ghost predicate Chain(chain: seq<string>) {
      chain != [] && forall k :: 0 <= k < |chain| - 1 ==> Edge(chain[k], chain[k + 1])
    }

    ghost predicate Reaches(path: string, file: string) {
      exists chain :: Chain(chain) && chain[0] == path && chain[|chain| - 1] == file
    }

    /** Closed but for the paths left out. */
    ghost predicate Closed(paths: set<string>, seen: set<string>) {
      forall a, b :: a in paths && Edge(a, b) ==> b in seen
    }

    lemma ReachesItself(path: string)
      ensures Reaches(path, path)
    {
      assert Chain([path]);
    }

    lemma ReachesOn(path: string, next: string, file: string)
      requires Edge(path, next) && Reaches(next, file)
      ensures Reaches(path, file)
    {
      var chain :| Chain(chain) && chain[0] == next && chain[|chain| - 1] == file;
      ChainMore(path, chain);
      hide Edge;
      var longer := [path] + chain;
      assert longer[0] == path && longer[|longer| - 1] == file;
    }

    lemma ChainMore(path: string, chain: seq<string>)
      requires Chain(chain) && Edge(path, chain[0])
      ensures Chain([path] + chain)
    {
      hide Edge;
      var longer := [path] + chain;
      forall k | 0 <= k < |longer| - 1
        ensures Edge(longer[k], longer[k + 1])
      {
        assert longer[k + 1] == chain[k];
        if k > 0 {
          assert longer[k] == chain[k - 1] && Edge(chain[k - 1], chain[k - 1 + 1]);
        }
      }
    }

    lemma {:induction false} ChainStaysIn(chain: seq<string>, seen: set<string>)
      requires Chain(chain) && chain[0] in seen && Closed(seen, seen)
      ensures chain[|chain| - 1] in seen
    {
      if |chain| > 1 {
        var init := chain[..|chain| - 1];
        forall k | 0 <= k < |init| - 1
          ensures Edge(init[k], init[k + 1])
        {
          assert Edge(chain[k], chain[k + 1]);
        }
        ChainStaysIn(init, seen);
        assert Edge(chain[|chain| - 2], chain[|chain| - 2 + 1]);
      }
    }

    /** A closed set of reachable files that holds path is all that path reaches. */
    lemma ClosedIsReachable(path: string, seen: set<string>)
      requires path in seen && Closed(seen, seen)
      requires forall file :: file in seen ==> Reaches(path, file)
      ensures forall file :: file in seen <==> Reaches(path, file)
    {
      forall file | Reaches(path, file)
        ensures file in seen
      {
        var chain :| Chain(chain) && chain[0] == path && chain[|chain| - 1] == file;
        ChainStaysIn(chain, seen);
      }
    }
  }

  class Visited {
    var paths: set<string>

    constructor ()
      ensures paths == {}
    {
      paths := {};
    }
  }

  /** The recorded items grew by some findings, and by nothing that was there before. */
  ghost predicate Grew(was: seq<Item>, now: seq<Item>, findings: set<Item>) {
    && was <= now
    && (set it | it in now) == (set it | it in was) + findings
    && (forall k :: |was| <= k < |now| ==> now[k] !in was)
  }

  lemma {:induction false} AddedAllGrew(was: seq<Item>, more: seq<Item>)
    ensures Grew(was, AddedAll(was, more), set it | it in more)
  {
    if more != [] {
      var init, last := more[..|more| - 1], more[|more| - 1];
      AddedAllGrew(was, init);
      assert (set it | it in more) == (set it | it in init) + {last};
      var now := AddedAll(was, init);
      assert last in now <==> last in (set it | it in now);
      assert (set it | it in now + [last]) == (set it | it in now) + {last};
    }
  }

  lemma GrewTwice(a: seq<Item>, b: seq<Item>, c: seq<Item>, f: set<Item>, g: set<Item>)
    requires Grew(a, b, f) && Grew(b, c, g)
    ensures Grew(a, c, f + g)
  {
    forall k | |a| <= k < |c|
      ensures c[k] !in a
    {
      if k < |b| {
        assert c[k] == b[k];
      }
    }
  }

  lemma {:induction false} ErrorsGrew(was: seq<Item>, now: seq<Item>)
    requires was <= now
    ensures |Errors(was)| <= |Errors(now)|
    ensures |Errors(was)| == |Errors(now)| <==> forall k :: |was| <= k < |now| ==> now[k].level != Error
  {
    if |was| < |now| {
      ErrorsGrew(was, now[..|now| - 1]);
    } else {
      assert was == now;
    }
  }

  /** The count of errors is unchanged exactly when every error found was already recorded. */
  lemma SameCount(was: seq<Item>, now: seq<Item>, findings: set<Item>)
    requires Grew(was, now, findings)
    ensures |Errors(was)| == |Errors(now)| <==> forall it :: it in findings && it.level == Error ==> it in was
  {
    hide Errors;
    ErrorsGrew(was, now);
    if it: Item :| it in findings && it.level == Error && it !in was {
      NewItem(was, now, findings, it);
    } else {
      forall k | |was| <= k < |now|
        ensures now[k].level != Error
      {
        OldItem(was, now, findings, k);
      }
    }
  }

  lemma NewItem(was: seq<Item>, now: seq<Item>, findings: set<Item>, it: Item)
    requires Grew(was, now, findings) && it in findings && it !in was
    ensures exists k :: |was| <= k < |now| && now[k] == it
  {
    assert it in (set x | x in now);
    var k :| 0 <= k < |now| && now[k] == it;
  }

  lemma OldItem(was: seq<Item>, now: seq<Item>, findings: set<Item>, k: nat)
    requires Grew(was, now, findings) && |was| <= k < |now|
    ensures now[k] in findings && now[k] !in was
  {
    var had := set x | x in was;
    assert now[k] in (set x | x in now);
    assert now[k] !in had;
    assert now[k] in had + findings;
  }

  /** What a visit leaves: the files it newly saw are reachable and closed, and exactly their findings were added. */
  ghost predicate Visit(g: Search, path: string, seen: set<string>, seen': set<string>, was: seq<Item>,
                        now: seq<Item>) {
    && seen + {path} <= seen'
    && seen' <= seen + {path} + g.world.exists_
    && (forall file :: file in seen' - seen ==> g.Reaches(path, file))
    && g.Closed(seen' - seen, seen')
    && Grew(was, now, g.FindingsOf(seen' - seen))
  }

  /** Midway through path's own sources: all but path itself is closed. */
  ghost predicate Visiting(g: Search, path: string, done: seq<string>, seen: set<string>, seen': set<string>,
                           was: seq<Item>, now: seq<Item>) {
    && seen + {path} <= seen'
    && seen' <= seen + {path} + g.world.exists_
    && (forall file :: file in seen' - seen ==> g.Reaches(path, file))
    && g.Closed(seen' - seen - {path}, seen')
    && (forall s :: s in done && s in g.world.exists_ ==> s in seen')
    && Grew(was, now, g.FindingsOf(seen' - seen - {path}) + (set it | it in g.Report(path).items)
                      + (set it | it in g.MissingOf(path, done)))
  }

  lemma VisitingStarts(g: Search, path: string, seen: set<string>, was: seq<Item>, now: seq<Item>)
    requires path !in seen && now == AddedAll(was, g.Report(path).items)
    ensures Visiting(g, path, [], seen, seen + {path}, was, now)
  {
    g.ReachesItself(path);
    AddedAllGrew(was, g.Report(path).items);
    assert seen + {path} - seen - {path} == {};
    assert g.FindingsOf({}) == {};
    assert (set it | it in g.MissingOf(path, [])) == {};
    assert {} + (set it | it in g.Report(path).items) + {} == (set it | it in g.Report(path).items);
  }

  lemma VisitingMissing(g: Search, path: string, done: seq<string>, s: string, seen: set<string>, seen': set<string>,
                        was: seq<Item>, now: seq<Item>, next: seq<Item>)
    requires Visiting(g, path, done, seen, seen', was, now) && s !in g.world.exists_
    requires next == Added(now, Item(Error, path, 0, DoesNotExist(s)))
    ensures Visiting(g, path, done + [s], seen, seen', was, next)
  {
    var item := Item(Error, path, 0, DoesNotExist(s));
    AddedOne(now, item);
    AddedAllGrew(now, [item]);
    var f := g.FindingsOf(seen' - seen - {path}) + (set it | it in g.Report(path).items)
        + (set it | it in g.MissingOf(path, done));
    GrewTwice(was, now, next, f, set it | it in [item]);
    MissingNext(g, path, done, s);
    assert f + (set it | it in [item])
        == g.FindingsOf(seen' - seen - {path}) + (set it | it in g.Report(path).items)
           + (set it | it in g.MissingOf(path, done + [s]));
  }

  lemma MissingNext(g: Search, path: string, done: seq<string>, s: string)
    ensures (set it | it in g.MissingOf(path, done + [s]))
         == (set it | it in g.MissingOf(path, done))
            + (if s in g.world.exists_ then {} else set it | it in [Item(Error, path, 0, DoesNotExist(s))])
  {
    assert (done + [s])[..|done|] == done;
  }

  lemma FindingsOfUnion(g: Search, a: set<string>, b: set<string>)
    ensures g.FindingsOf(a + b) == g.FindingsOf(a) + g.FindingsOf(b)
  {
  }

  lemma VisitingSource(g: Search, path: string, done: seq<string>, s: string, seen: set<string>, mid: set<string>,
                       after: set<string>, was: seq<Item>, now: seq<Item>, next: seq<Item>)
    requires Visiting(g, path, done, seen, mid, was, now) && g.Edge(path, s)
    requires Visit(g, s, mid, after, now, next) || (s in mid && after == mid && next == now)
    ensures Visiting(g, path, done + [s], seen, after, was, next)
  {
    MissingNext(g, path, done, s);
    var f := g.FindingsOf(mid - seen - {path}) + (set it | it in g.Report(path).items)
        + (set it | it in g.MissingOf(path, done));
    if s !in mid || after != mid || next != now {
      forall file | file in after - seen
        ensures g.Reaches(path, file)
      {
        if file !in mid {
          g.ReachesOn(path, s, file);
        }
      }
      assert after - seen - {path} == (mid - seen - {path}) + (after - mid);
      FindingsOfUnion(g, mid - seen - {path}, after - mid);
      GrewTwice(was, now, next, f, g.FindingsOf(after - mid));
      assert f + g.FindingsOf(after - mid)
          == g.FindingsOf(after - seen - {path}) + (set it | it in g.Report(path).items)
             + (set it | it in g.MissingOf(path, done + [s]));
    }
  }

  lemma NewWith(g: Search, path: string, found: set<string>)
    requires path in found
    ensures g.FindingsOf(found)
         == g.FindingsOf(found - {path}) + (set it | it in g.Report(path).items) + (set it | it in g.Missing(path))
  {
    assert found == (found - {path}) + {path};
    FindingsOfUnion(g, found - {path}, {path});
    assert g.FindingsOf({path}) == g.Findings(path);
  }

  lemma VisitingEnds(g: Search, path: string, seen: set<string>, seen': set<string>, was: seq<Item>, now: seq<Item>)
    requires path !in seen && Visiting(g, path, g.Report(path).sources, seen, seen', was, now)
    ensures Visit(g, path, seen, seen', was, now)
  {
    NewWith(g, path, seen' - seen);
  }

  /** checked_closure: path and everything it sources, each file once. */
  method CheckedClosure(ghost g: Search, path: string, dir: string, problems: Problems, visited: Visited,
                        world: World, flat: bool)
    returns (safe: bool)
    requires world == g.world && flat == g.flat
    requires path in visited.paths || dir == g.Dir(path)
    requires path == g.top || g.top in visited.paths
    modifies problems, visited
    ensures old(path in visited.paths)
            ==> safe && visited.paths == old(visited.paths) && problems.items == old(problems.items)
    ensures old(path !in visited.paths) ==>
              Visit(g, path, old(visited.paths), visited.paths, old(problems.items), problems.items)
    ensures safe <==> |Errors(problems.items)| == |Errors(old(problems.items))|
    decreases g.world.exists_ + {path} - visited.paths, path !in visited.paths
  {
    hide Visit, Visiting, Errors, AddedAll, FileReport;
    if path in visited.paths {
      return true;
    }
    ghost var seen, was := visited.paths, problems.items;
    visited.paths := visited.paths + {path};
    var before := |Errors(problems.items)|;
    var sources := CheckFile(world, path, dir, problems);
    VisitingStarts(g, path, seen, was, problems.items);
    for k := 0 to |sources|
      invariant Visiting(g, path, sources[..k], seen, visited.paths, was, problems.items)
      invariant seen + {path} <= visited.paths
    {
      var s := sources[k];
      ghost var mid, now := visited.paths, problems.items;
      assert sources[..k + 1] == sources[..k] + [s];
      if s !in world.exists_ {
        problems.Add(Item(Error, path, 0, DoesNotExist(s)));
        VisitingMissing(g, path, sources[..k], s, seen, mid, was, now, problems.items);
        continue;
      }
      var _ := CheckedClosure(g, s, if flat then dir else world.dirname(s), problems, visited, world, flat);
      VisitingSource(g, path, sources[..k], s, seen, mid, visited.paths, was, now, problems.items);
      VisitSees(g, s, mid, visited.paths, now, problems.items);
    }
    assert sources[..|sources|] == sources;
    VisitingEnds(g, path, seen, visited.paths, was, problems.items);
    safe := |Errors(problems.items)| == before;
  }

  lemma VisitSees(g: Search, path: string, seen: set<string>, seen': set<string>, was: seq<Item>, now: seq<Item>)
    ensures Visit(g, path, seen, seen', was, now) ==> seen + {path} <= seen'
  {
  }

  /** A file with no error of its own whose every source exists. */
  ghost predicate Clean(g: Search, file: string) {
    forall it :: it in g.Findings(file) ==> it.level != Error
  }

  /** A check of one file on given Problems. Sourcing is called safe exactly when every error in the files it
      reaches was recorded before: a second check of the same bad file on the same Problems passes. */
  method CheckOn(world: World, path: string, dir: string, flat: bool, problems: Problems) returns (safe: bool)
    modifies problems
    ensures var g := Search(world, flat, path, dir);
            safe <==> forall file, it :: g.Reaches(path, file) && it in g.Findings(file) && it.level == Error ==>
                        it in old(problems.items)
    ensures var g := Search(world, flat, path, dir);
            forall it :: it in problems.items <==>
              it in old(problems.items) || exists file :: g.Reaches(path, file) && it in g.Findings(file)
  {
    hide Visit, Errors;
    var visited := new Visited();
    ghost var g, was := Search(world, flat, path, dir), problems.items;
    safe := CheckedClosure(g, path, dir, problems, visited, world, flat);
    VisitMeans(g, path, visited.paths, was, problems.items);
  }

  lemma VisitMeans(g: Search, path: string, seen: set<string>, was: seq<Item>, now: seq<Item>)
    requires Visit(g, path, {}, seen, was, now)
    ensures |Errors(now)| == |Errors(was)|
       <==> forall file, it :: g.Reaches(path, file) && it in g.Findings(file) && it.level == Error ==> it in was
    ensures forall it :: it in now <==> it in was || exists file :: g.Reaches(path, file) && it in g.Findings(file)
  {
    assert seen - {} == seen;
    var findings := g.FindingsOf(seen);
    SameCount(was, now, findings);
    GrewMembers(was, now, findings);
    FindingsReached(g, path, seen);
    hide *;
  }

  lemma GrewMembers(was: seq<Item>, now: seq<Item>, findings: set<Item>)
    requires Grew(was, now, findings)
    ensures forall it :: it in now <==> it in was || it in findings
  {
    var before, after := set x | x in was, set x | x in now;
    forall it
      ensures it in now <==> it in was || it in findings
    {
      assert it in now <==> it in after;
      assert it in was <==> it in before;
    }
  }

  lemma FindingsReached(g: Search, path: string, seen: set<string>)
    requires path in seen && g.Closed(seen, seen) && forall file :: file in seen ==> g.Reaches(path, file)
    ensures forall it :: it in g.FindingsOf(seen) <==> exists file :: g.Reaches(path, file) && it in g.Findings(file)
  {
    g.ClosedIsReachable(path, seen);
  }

  /** checked_closure with fresh Problems, over any source graph, cyclic or not: it is safe to source the
      file exactly when every file it reaches is clean. */
  method CheckFresh(world: World, path: string, dir: string, flat: bool) returns (safe: bool, items: seq<Item>)
    ensures var g := Search(world, flat, path, dir);
            safe <==> forall file :: g.Reaches(path, file) ==> Clean(g, file)
    ensures var g := Search(world, flat, path, dir);
            forall it :: it in items <==> exists file :: g.Reaches(path, file) && it in g.Findings(file)
  {
    var problems := new Problems();
    safe := CheckOn(world, path, dir, flat, problems);
    items := problems.items;
  }

  /** The same file checked twice on the same Problems, as a flat recipe is for its two platforms:
      the second check passes whatever the first found. */
  method CheckTwice(world: World, path: string, dir: string, flat: bool) returns (first: bool, second: bool)
    ensures var g := Search(world, flat, path, dir);
            first <==> forall file :: g.Reaches(path, file) ==> Clean(g, file)
    ensures second
  {
    var problems := new Problems();
    first := CheckOn(world, path, dir, flat, problems);
    second := CheckOn(world, path, dir, flat, problems);
  }

  /** A file checked on the Problems another was checked on, as a platform's file is after model.env: it passes exactly
      when every error it reaches is one the other reaches. */
  method CheckAfter(world: World, a: string, dirA: string, flatA: bool, b: string, dirB: string, flatB: bool)
    returns (first: bool, second: bool)
    ensures var g := Search(world, flatA, a, dirA);
            first <==> forall file :: g.Reaches(a, file) ==> Clean(g, file)
    ensures var g, h := Search(world, flatA, a, dirA), Search(world, flatB, b, dirB);
            second <==> forall file, it :: h.Reaches(b, file) && it in h.Findings(file) && it.level == Error ==>
                          exists other :: g.Reaches(a, other) && it in g.Findings(other)
  {
    var problems := new Problems();
    first := CheckOn(world, a, dirA, flatA, problems);
    second := CheckOn(world, b, dirB, flatB, problems);
  }

  /** Findings name the file they are in. */
  lemma OwnFindings(g: Search, file: string, it: Item)
    requires it in g.Findings(file)
    ensures it.path == file
  {
    hide StmtsReport, Accept;
    MissingOwn(g, file, g.Report(file).sources);
    if file in g.world.text && Accept(g.world.text[file]).Ok? {
      AcceptSpoken(g.world.text[file]);
      StatementsOwn(g.world, file, g.Dir(file), Accept(g.world.text[file]).value);
    }
  }

  lemma {:induction false} MissingOwn(g: Search, file: string, sources: seq<string>)
    ensures forall it :: it in g.MissingOf(file, sources) ==> it.path == file
  {
    if sources != [] {
      MissingOwn(g, file, sources[..|sources| - 1]);
    }
  }

  lemma {:induction false} StatementsOwn(world: World, path: string, dir: string, stmts: seq<Stmt>)
    requires Spoken(stmts)
    ensures forall it :: it in StmtsReport(world, path, dir, stmts).items ==> it.path == path
  {
    hide StmtReport;
    if stmts != [] {
      StatementsOwn(world, path, dir, stmts[..|stmts| - 1]);
      StatementOwn(world, path, dir, stmts[|stmts| - 1]);
    }
  }

  lemma StatementOwn(world: World, path: string, dir: string, st: Stmt)
    requires st.words != []
    ensures forall it :: it in StmtReport(world, path, dir, st).items ==> it.path == path
  {
    hide Contains, AfterSlash, IsParentTarget, PathJoin, ParentFile, BaseName, AssignLength, FirstCommand, Unquote;
  }

  /** Both files in folders of their own, the second passes exactly when every file it reaches and the first does not
      is clean: what the first reaches is never held against it. */
  method CheckAfterParent(world: World, a: string, b: string) returns (first: bool, second: bool)
    ensures var g := Search(world, false, a, world.dirname(a));
            first <==> forall file :: g.Reaches(a, file) ==> Clean(g, file)
    ensures var g := Search(world, false, a, world.dirname(a));
            second <==> forall file :: g.Reaches(b, file) && !g.Reaches(a, file) ==> Clean(g, file)
  {
    first, second := CheckAfter(world, a, world.dirname(a), false, b, world.dirname(b), false);
    ghost var g, h := Search(world, false, a, world.dirname(a)), Search(world, false, b, world.dirname(b));
    SameSearch(g, h);
    forall file, it, other | g.Reaches(a, other) && it in g.Findings(other) && it in g.Findings(file)
      ensures other == file
    {
      OwnFindings(g, file, it);
      OwnFindings(g, other, it);
    }
  }

  /** Two searches of a world differ only in where they start. */
  lemma SameSearch(g: Search, h: Search)
    requires g.world == h.world && !g.flat && !h.flat
    requires g.topDir == g.world.dirname(g.top) && h.topDir == h.world.dirname(h.top)
    ensures forall file :: g.Findings(file) == h.Findings(file) && (Clean(g, file) <==> Clean(h, file))
    ensures forall a, b :: g.Edge(a, b) <==> h.Edge(a, b)
    ensures forall a, file :: g.Reaches(a, file) <==> h.Reaches(a, file)
  {
    hide FileReport;
    forall file
      ensures g.Report(file) == h.Report(file) && g.Findings(file) == h.Findings(file)
      ensures Clean(g, file) <==> Clean(h, file)
    {
      SameMissing(g, h, file, g.Report(file).sources);
    }
    forall a, file
      ensures g.Reaches(a, file) <==> h.Reaches(a, file)
    {
      SameReach(g, h, a, file);
      SameReach(h, g, a, file);
    }
  }

  lemma {:induction false} SameMissing(g: Search, h: Search, file: string, sources: seq<string>)
    requires g.world == h.world
    ensures g.MissingOf(file, sources) == h.MissingOf(file, sources)
  {
    if sources != [] {
      SameMissing(g, h, file, sources[..|sources| - 1]);
    }
  }

  lemma SameReach(g: Search, h: Search, a: string, file: string)
    requires forall x, y :: g.Edge(x, y) ==> h.Edge(x, y)
    ensures g.Reaches(a, file) ==> h.Reaches(a, file)
  {
    if g.Reaches(a, file) {
      var chain :| g.Chain(chain) && chain[0] == a && chain[|chain| - 1] == file;
      assert h.Chain(chain);
    }
  }

  // ------------------------------------------------- what a clean file is --

  /** A statement check_file lets by: a source of one allowed file, an array, or assignments only. */
  ghost predicate Allowed(world: World, dir: string, st: Stmt, sources: seq<string>)
    requires st.words != []
  {
    || (st.words[0] in {".", "source"} && |st.words| == 2
        && exists s :: s in sources && IsHome(world, dir, Unquote(st.words[1]), s))
    || (AssignLength(st.words[0]) > 0 && EndsWith(st.words[0], "("))
    || (forall k :: 0 <= k < |st.words| ==> AssignLength(st.words[k]) > 0)
  }

  /** s is a .env file of this folder itself, or one under recipes/ of the checkout or of one's own config,
      with no ".." on the way. */
  ghost predicate IsHome(world: World, dir: string, target: string, s: string) {
    || (exists rel :: s == PathJoin(dir, rel) && '/' !in rel && EndsWith(rel, ".env")
                      && (target == "$RECIPE_DIR/" + rel || target == "${RECIPE_DIR}/" + rel))
    || (StartsWith(target, "recipes/") && !Contains(target, "..")
        && (s == PathJoin(world.root, target) || s == PathJoin(world.config, target)))
  }

  lemma {:induction false} AfterPrefix(prefix: string, rel: string)
    requires '/' !in prefix
    ensures AfterSlash(prefix + "/" + rel) == rel
  {
    var s := prefix + "/" + rel;
    if prefix == "" {
      assert s == "/" + rel;
    } else {
      assert s[1..] == prefix[1..] + "/" + rel;
      AfterPrefix(prefix[1..], rel);
    }
  }

  lemma {:induction false} NoCommand(words: seq<string>)
    requires FirstCommand(words) == None
    ensures forall k :: 0 <= k < |words| ==> AssignLength(words[k]) > 0
  {
    if words != [] {
      NoCommand(words[1..]);
      assert forall k :: 0 < k < |words| ==> words[k] == words[1..][k - 1];
    }
  }

  lemma OwnFolderIsHome(world: World, dir: string, target: string, name: string)
    requires name == "$RECIPE_DIR" || name == "${RECIPE_DIR}"
    requires StartsWith(target, name + "/") && '/' !in AfterSlash(target) && EndsWith(AfterSlash(target), ".env")
    ensures IsHome(world, dir, target, PathJoin(dir, AfterSlash(target)))
  {
    var rel := target[|name| + 1..];
    assert target == name + "/" + rel;
    AfterPrefix(name, rel);
    assert name == "$RECIPE_DIR" ==> target == "$RECIPE_DIR/" + rel;
    assert name == "${RECIPE_DIR}" ==> target == "${RECIPE_DIR}/" + rel;
  }

  lemma ParentIsHome(world: World, dir: string, target: string)
    requires IsParentTarget(target) && !Contains(target, "..")
    ensures IsHome(world, dir, target, ParentFile(world, target))
  {
    hide Contains, PathJoin;
    assert Chomped(target) <= target;
  }

  lemma SourceHome(world: World, path: string, dir: string, st: Stmt)
    requires |st.words| == 2
    requires forall it :: it in SourceReport(world, path, dir, st).items ==> it.level != Error
    ensures var sources := SourceReport(world, path, dir, st).sources;
            exists s :: s in sources && IsHome(world, dir, Unquote(st.words[1]), s)
  {
    hide Contains, AfterSlash, IsParentTarget, IsHome, PathJoin, ParentFile;
    var r, target := SourceReport(world, path, dir, st), Unquote(st.words[1]);
    if r.items == [] {
      assert r.sources[0] in r.sources;
      if StartsWith(target, "$RECIPE_DIR/") {
        assert "$RECIPE_DIR" + "/" == "$RECIPE_DIR/";
        OwnFolderIsHome(world, dir, target, "$RECIPE_DIR");
      } else if StartsWith(target, "${RECIPE_DIR}/") {
        assert "${RECIPE_DIR}" + "/" == "${RECIPE_DIR}/";
        OwnFolderIsHome(world, dir, target, "${RECIPE_DIR}");
      } else {
        ParentIsHome(world, dir, target);
      }
    }
  }

  lemma StatementAllowed(world: World, path: string, dir: string, st: Stmt)
    requires st.words != []
    requires forall it :: it in StmtReport(world, path, dir, st).items ==> it.level != Error
    ensures Allowed(world, dir, st, StmtReport(world, path, dir, st).sources)
  {
    hide Contains, AfterSlash, IsParentTarget, PathJoin, BaseName, AssignLength;
    var r := StmtReport(world, path, dir, st);
    var head := st.words[0];
    if head == "." || head == "source" {
      if |st.words| == 2 {
        SourceHome(world, path, dir, st);
      }
    } else if AssignLength(head) > 0 && !EndsWith(head, "(") {
      if FirstCommand(st.words[1..]) == None {
        NoCommand(st.words[1..]);
        assert forall k :: 0 < k < |st.words| ==> st.words[k] == st.words[1..][k - 1];
      }
    }
  }

  lemma {:induction false} StatementsAllowed(world: World, path: string, dir: string, stmts: seq<Stmt>, k: nat)
    requires Spoken(stmts) && k < |stmts|
    requires forall it :: it in StmtsReport(world, path, dir, stmts).items ==> it.level != Error
    ensures Allowed(world, dir, stmts[k], StmtsReport(world, path, dir, stmts).sources)
  {
    hide StmtReport, Allowed;
    var init, last := stmts[..|stmts| - 1], stmts[|stmts| - 1];
    var all, some := StmtsReport(world, path, dir, stmts), StmtReport(world, path, dir, last);
    if k < |init| {
      forall it | it in StmtsReport(world, path, dir, init).items
        ensures it.level != Error
      {
        assert it in all.items;
      }
      StatementsAllowed(world, path, dir, init, k);
      AllowedStill(world, dir, stmts[k], StmtsReport(world, path, dir, init).sources, all.sources);
    } else {
      forall it | it in some.items
        ensures it.level != Error
      {
        assert it in all.items;
      }
      StatementAllowed(world, path, dir, last);
      AllowedStill(world, dir, last, some.sources, all.sources);
    }
  }

  lemma AllowedStill(world: World, dir: string, st: Stmt, sources: seq<string>, more: seq<string>)
    requires st.words != [] && Allowed(world, dir, st, sources) && forall s :: s in sources ==> s in more
    ensures Allowed(world, dir, st, more)
  {
  }

  /** A clean file can be read, scans, and holds only statements a recipe may contain. */
  lemma CleanFileAllowed(g: Search, file: string)
    requires Clean(g, file)
    ensures file in g.world.text && Accept(g.world.text[file]).Ok?
    ensures Spoken(Accept(g.world.text[file]).value)
    ensures forall k :: 0 <= k < |Accept(g.world.text[file]).value| ==>
              Allowed(g.world, g.Dir(file), Accept(g.world.text[file]).value[k], g.Report(file).sources)
  {
    hide Accept, StmtsReport, Allowed;
    var r := g.Report(file);
    assert forall it :: it in r.items ==> it in g.Findings(file);
    if file !in g.world.text || Accept(g.world.text[file]).Err? {
      UnscannedReports(g.world, file, g.Dir(file));
    } else {
      var stmts := Accept(g.world.text[file]).value;
      AcceptSpoken(g.world.text[file]);
      forall k | 0 <= k < |stmts|
        ensures Allowed(g.world, g.Dir(file), stmts[k], r.sources)
      {
        StatementsAllowed(g.world, file, g.Dir(file), stmts, k);
      }
    }
  }

  lemma UnscannedReports(world: World, path: string, dir: string)
    requires path !in world.text || Accept(world.text[path]).Err?
    ensures exists it :: it in FileReport(world, path, dir).items && it.level == Error
  {
    hide Accept;
    assert FileReport(world, path, dir).items[0].level == Error;
  }
}
