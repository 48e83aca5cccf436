/** What check_file lets by, told without its parts: which texts, which statements, and where a source line leads. */
module ClosureRules {
  import opened Prelude
  import opened Scanner
  import opened ScannerAccepts
  import opened Closure

  // ------------------------------------------------------------ statements --

  predicate IsEnv(s: string) { |s| >= 4 && s[|s| - 4..] == ".env" }

  /** A .env file of the recipe's own folder. */
  predicate OwnFile(target: string, rel: string) {
    && (target == "$RECIPE_DIR/" + rel || target == "${RECIPE_DIR}/" + rel)
    && '/' !in rel && IsEnv(rel)
  }

  /** A .env file under recipes/, with no ".." on the way; one last newline passes too. */
  predicate ParentName(target: string, mid: string) {
    && (target == "recipes/" + mid + ".env" || target == "recipes/" + mid + ".env" + "\n")
    && mid != ""
    && (forall k :: 0 <= k < |mid| ==> InPath(mid[k]))
    && !Dotted(target)
  }

  predicate InPath(c: char) {
    'A' <= c <= 'Z' || 'a' <= c <= 'z' || '0' <= c <= '9' || c == '.' || c == '_' || c == '/' || c == '-'
  }

  lemma PathChars(c: char)
    ensures InPath(c) <==> IsPathChar(c)
  {
    assert "._/-" == ['.', '_', '/', '-'];
  }

  predicate Dotted(s: string) { exists i :: 0 <= i < |s| - 1 && s[i] == '.' && s[i + 1] == '.' }

  ghost predicate IsAssign(w: string) { exists name :: Assigns(w, name) }

  /** A statement a recipe may contain: a source of one file it may source, an array, or assignments alone. */
  ghost predicate Fine(st: Stmt)
    requires st.words != []
  {
    var head := st.words[0];
    if head == "." || head == "source" then
      && |st.words| == 2
      && ((exists rel :: OwnFile(Unquote(st.words[1]), rel)) || exists mid :: ParentName(Unquote(st.words[1]), mid))
    else
      && IsAssign(head)
      && (head[|head| - 1] == '(' || forall k :: 0 <= k < |st.words| ==> IsAssign(st.words[k]))
  }

  /** A word without the quotes around it, when they are the same. */
  lemma Unquoted(w: string, t: string)
    ensures w == "'" + t + "'" || w == "\"" + t + "\"" ==> Unquote(w) == t
    ensures |w| < 2 || w[0] != w[|w| - 1] || (w[0] != '\'' && w[0] != '"') ==> Unquote(w) == w
  {
    if w == "'" + t + "'" || w == "\"" + t + "\"" {
      assert w[1..|w| - 1] == t && w[0] == w[|w| - 1];
    }
  }

  lemma {:induction false} ContainsDots(s: string)
    ensures Contains(s, "..") <==> Dotted(s)
  {
    if s != "" {
      ContainsDots(s[1..]);
      if Dotted(s) {
        var i :| 0 <= i < |s| - 1 && s[i] == '.' && s[i + 1] == '.';
        if i > 0 {
          assert s[1..][i - 1] == '.' && s[1..][i - 1 + 1] == '.';
        }
      }
      if Dotted(s[1..]) {
        var i :| 0 <= i < |s[1..]| - 1 && s[1..][i] == '.' && s[1..][i + 1] == '.';
        assert s[i + 1] == '.' && s[i + 1 + 1] == '.';
      }
      assert StartsWith(s, "..") <==> |s| >= 2 && s[0] == '.' && s[1] == '.';
    }
  }

  lemma {:induction false} BeforeIs(s: string, entry: string)
    requires '/' !in entry && (s == entry || entry + "/" <= s)
    ensures BeforeSlash(s) == entry
  {
    if entry == "" {
      assert s == "" || s[0] == '/';
    } else {
      assert s[0] == entry[0] && entry[0] != '/';
      assert entry + "/" <= s ==> entry[1..] + "/" <= s[1..] by {
        if entry + "/" <= s { assert (entry + "/")[1..] == entry[1..] + "/"; }
      }
      BeforeIs(s[1..], entry[1..]);
    }
  }

  /** Where a source of recipes/ENTRY... leads: into one's own recipes when they have that entry, else into the
      checkout. */
  lemma ParentWhere(world: World, target: string, rest: string, entry: string)
    requires target == "recipes/" + rest && '/' !in entry && (rest == entry || entry + "/" <= rest)
    requires world.config != "" ==> world.config[|world.config| - 1] != '/'
    requires world.root != "" ==> world.root[|world.root| - 1] != '/'
    ensures ParentFile(world, target) ==
            if world.config != "" && world.config + "/recipes/" + entry in world.entries
            then world.config + "/" + target
            else if world.root == "" then target else world.root + "/" + target
  {
    hide *;
    AfterRecipes(target, rest);
    BeforeIs(rest, entry);
    ParentIs(world, target, entry);
    JoinedPath(world.config, target);
    JoinedPath(world.root, target);
    JoinedPath(world.config, "recipes");
    JoinedPath(world.config + "/recipes", entry);
    NoSlash(entry);
    RecipesText(world.config, entry);
  }

  lemma RecipesText(config: string, entry: string)
    ensures config + "/" + "recipes" == config + "/recipes"
    ensures config + "/recipes" + "/" + entry == config + "/recipes/" + entry
    ensures config + "/recipes" != "" && (config + "/recipes")[|config + "/recipes"| - 1] == 's'
  {
  }

  lemma NoSlash(entry: string)
    requires '/' !in entry
    ensures entry == "" || entry[0] != '/'
    ensures "recipes"[0] == 'r'
  {
  }

  lemma AfterRecipes(target: string, rest: string)
    requires target == "recipes/" + rest
    ensures AfterSlash(target) == rest && target != "" && target[0] == 'r'
  {
    AfterPrefix("recipes", rest);
    assert "recipes" + "/" + rest == target;
  }

  lemma ParentIs(world: World, target: string, entry: string)
    requires BeforeSlash(AfterSlash(target)) == entry
    ensures ParentFile(world, target) ==
            if world.config != "" && PathJoin(PathJoin(world.config, "recipes"), entry) in world.entries
            then PathJoin(world.config, target) else PathJoin(world.root, target)
  {
    hide BeforeSlash, AfterSlash, PathJoin;
  }

  /** A path joined to a folder. */
  lemma JoinedPath(a: string, b: string)
    requires b == "" || b[0] != '/'
    ensures a != "" && a[|a| - 1] != '/' ==> PathJoin(a, b) == a + "/" + b
    ensures a == "" ==> PathJoin(a, b) == b
    ensures a != "" && a[|a| - 1] == '/' ==> PathJoin(a, b) == a + b
  {
    assert a != "" ==> a[|a| - 1..] == [a[|a| - 1]];
  }

  lemma OwnSource(world: World, path: string, dir: string, st: Stmt, rel: string)
    requires |st.words| == 2 && OwnFile(Unquote(st.words[1]), rel)
    ensures SourceReport(world, path, dir, st) == Report([], [PathJoin(dir, rel)])
  {
    hide Unquote, PathJoin, IsParentTarget, Contains;
    var target := Unquote(st.words[1]);
    var name := if target == "$RECIPE_DIR/" + rel then "$RECIPE_DIR" else "${RECIPE_DIR}";
    assert target == name + "/" + rel;
    AfterPrefix(name, rel);
    assert StartsWith(target, "$RECIPE_DIR/") || StartsWith(target, "${RECIPE_DIR}/");
  }

  lemma ParentSource(world: World, path: string, dir: string, st: Stmt, mid: string)
    requires |st.words| == 2 && ParentName(Unquote(st.words[1]), mid)
    ensures SourceReport(world, path, dir, st) == Report([], [ParentFile(world, Unquote(st.words[1]))])
  {
    hide Unquote, PathJoin, Contains, ParentFile;
    var target := Unquote(st.words[1]);
    ContainsDots(target);
    assert target[0] == 'r';
    ParentTargetIs(target, mid);
    hide IsParentTarget, ParentName;
  }

  lemma ParentTargetIs(target: string, mid: string)
    requires ParentName(target, mid)
    ensures IsParentTarget(target)
  {
    var body := "recipes/" + mid + ".env";
    BodyOf(target, body);
    BodyForm(body, mid);
    hide InPath, IsPathChar, EndsWith, Dotted;
    forall k | 8 <= k < |body| - 4
      ensures IsPathChar(body[k])
    {
      PathChars(mid[k - 8]);
    }
  }

  /** The target without one last newline. */
  lemma BodyOf(target: string, body: string)
    requires EndsWith(body, ".env") && (target == body || target == body + "\n")
    ensures Chomped(target) == body
  {
    assert body[|body| - 4..][3] == body[|body| - 1] == 'v';
    assert target == body ==> target[|target| - 1..] == "v";
    assert target != body ==> target[..|target| - 1] == body && target[|target| - 1..] == "\n";
  }

  lemma BodyForm(body: string, mid: string)
    ensures body == "recipes/" + mid + ".env" ==>
              && StartsWith(body, "recipes/") && EndsWith(body, ".env") && |body| == |mid| + 12
              && body[8..|body| - 4] == mid && forall k :: 8 <= k < |body| - 4 ==> body[k] == mid[k - 8]
    ensures StartsWith(body, "recipes/") && EndsWith(body, ".env") && |body| >= 12 && mid == body[8..|body| - 4] ==>
              body == "recipes/" + mid + ".env"
  {
  }

  lemma TargetParent(target: string) returns (mid: string)
    requires IsParentTarget(target) && !Contains(target, "..")
    ensures ParentName(target, mid)
  {
    ContainsDots(target);
    var body := Chomped(target);
    mid := body[8..|body| - 4];
    BodyForm(body, mid);
    LastNewline(target, body);
    hide InPath, IsPathChar, EndsWith, Dotted, Contains;
    forall k | 0 <= k < |mid|
      ensures InPath(mid[k])
    {
      assert mid[k] == body[k + 8];
      TargetChars(target, body, k + 8);
      PathChars(body[k + 8]);
    }
  }

  lemma TargetChars(target: string, body: string, k: nat)
    requires IsParentTarget(target) && 8 <= k < |body| - 4
    requires body == Chomped(target)
    ensures IsPathChar(body[k])
  {
    hide IsPathChar;
  }

  lemma LastNewline(target: string, body: string)
    requires body == Chomped(target)
    ensures target == body || target == body + "\n"
  {
  }

  lemma SourceFine(world: World, path: string, dir: string, st: Stmt)
    requires |st.words| == 2 && SourceReport(world, path, dir, st).items == []
    ensures (exists rel :: OwnFile(Unquote(st.words[1]), rel)) || exists mid :: ParentName(Unquote(st.words[1]), mid)
  {
    hide Unquote, PathJoin, ParentFile, Contains, OwnFile, ParentName;
    var target := Unquote(st.words[1]);
    if StartsWith(target, "$RECIPE_DIR/") {
      OwnTarget(target, "$RECIPE_DIR");
    } else if StartsWith(target, "${RECIPE_DIR}/") {
      OwnTarget(target, "${RECIPE_DIR}");
    } else {
      var mid := TargetParent(target);
    }
  }

  lemma OwnTarget(target: string, name: string)
    requires name == "$RECIPE_DIR" || name == "${RECIPE_DIR}"
    requires StartsWith(target, name + "/") && '/' !in AfterSlash(target) && EndsWith(AfterSlash(target), ".env")
    ensures OwnFile(target, AfterSlash(target))
  {
    hide *;
    PrefixSplit(target, name);
    var rel := target[|name| + 1..];
    AfterPrefix(name, rel);
    OwnIs(target, name, rel);
  }

  lemma PrefixSplit(target: string, name: string)
    requires StartsWith(target, name + "/")
    ensures |name| + 1 <= |target| && target == name + "/" + target[|name| + 1..]
    ensures name == "$RECIPE_DIR" || name == "${RECIPE_DIR}" ==> '/' !in name
  {
  }

  lemma OwnIs(target: string, name: string, rel: string)
    requires (name == "$RECIPE_DIR" || name == "${RECIPE_DIR}") && target == name + "/" + rel
    requires '/' !in rel && EndsWith(rel, ".env")
    ensures OwnFile(target, rel)
  {
    assert "$RECIPE_DIR" + "/" == "$RECIPE_DIR/" && "${RECIPE_DIR}" + "/" == "${RECIPE_DIR}/";
  }

  lemma {:induction false} FirstCommandSpec(words: seq<string>)
    ensures FirstCommand(words) == None <==> forall k :: 0 <= k < |words| ==> AssignLength(words[k]) > 0
  {
    hide AssignLength;
    if words != [] {
      FirstCommandSpec(words[1..]);
      assert forall k :: 0 < k < |words| ==> words[k] == words[1..][k - 1];
    }
  }

  /** One statement draws an error exactly when it is not fine, at most one finding, on its own line. */
  lemma StatementJudged(world: World, path: string, dir: string, st: Stmt)
    requires st.words != []
    ensures var r := StmtReport(world, path, dir, st);
            && ((forall it :: it in r.items ==> it.level != Error) <==> Fine(st))
            && |r.items| <= 1 && (forall it :: it in r.items ==> it.path == path && it.line == st.line)
            && (!Fine(st) ==> r.sources == [])
  {
    hide *;
    var head, r := st.words[0], StmtReport(world, path, dir, st);
    AssignForm(head);
    IsAssignMeans(head);
    StmtReportIs(world, path, dir, st);
    FineMeans(st);
    if head == "." || head == "source" {
      SourceJudged(world, path, dir, st);
    } else if AssignLength(head) > 0 && !EndsWith(head, "(") {
      FirstCommandSpec(st.words[1..]);
      AllAssign(st.words);
    }
    EndsInParen(head);
    OneItem(r);
  }

  lemma IsAssignMeans(w: string)
    ensures IsAssign(w) <==> exists name :: Assigns(w, name)
    ensures IsAssign(w) ==> w != ""
  {
  }

  lemma EndsInParen(head: string)
    ensures EndsWith(head, "(") <==> head != "" && head[|head| - 1] == '('
  {
    assert head != "" ==> head[|head| - 1..] == [head[|head| - 1]];
  }

  lemma OneItem(r: Report)
    ensures |r.items| == 1 ==> forall it :: it in r.items <==> it == r.items[0]
    ensures |r.items| == 0 ==> forall it :: it !in r.items
  {
  }

  lemma AllAssign(words: seq<string>)
    requires words != [] && AssignLength(words[0]) > 0
    ensures (forall k :: 0 <= k < |words| ==> IsAssign(words[k]))
       <==> (forall k :: 0 <= k < |words[1..]| ==> AssignLength(words[1..][k]) > 0)
  {
    hide *;
    forall k | 0 <= k < |words|
      ensures IsAssign(words[k]) <==> AssignLength(words[k]) > 0
    {
      AssignForm(words[k]);
      IsAssignMeans(words[k]);
    }
    assert forall k :: 0 < k < |words| ==> words[k] == words[1..][k - 1];
  }

  lemma FineMeans(st: Stmt)
    requires st.words != []
    ensures var head := st.words[0];
            Fine(st) <==>
              if head == "." || head == "source" then
                |st.words| == 2
                && ((exists rel :: OwnFile(Unquote(st.words[1]), rel))
                    || exists mid :: ParentName(Unquote(st.words[1]), mid))
              else
                IsAssign(head) && head != ""
                && (head[|head| - 1] == '(' || forall k :: 0 <= k < |st.words| ==> IsAssign(st.words[k]))
  {
    hide OwnFile, ParentName, Unquote;
    IsAssignMeans(st.words[0]);
    hide IsAssign;
  }

  lemma StmtReportIs(world: World, path: string, dir: string, st: Stmt)
    requires st.words != []
    ensures var head, r := st.words[0], StmtReport(world, path, dir, st);
            if head == "." || head == "source" then r == SourceReport(world, path, dir, st)
            else
              && r.sources == []
              && if AssignLength(head) == 0 then r.items == [Item(Error, path, st.line, IsCommand(head))]
                 else if EndsWith(head, "(") then
                   r.items == [] || r.items == [Item(Warning, path, st.line, BelongsInPlatformFile)]
                 else if FirstCommand(st.words[1..]) == None then r.items == []
                 else r.items == [Item(Error, path, st.line, WouldRun(FirstCommand(st.words[1..]).value))]
  {
    hide SourceReport, AssignLength, FirstCommand, BaseName, NameRun;
  }

  lemma SourceJudged(world: World, path: string, dir: string, st: Stmt)
    ensures var r := SourceReport(world, path, dir, st);
            && |r.items| <= 1 && (|r.items| == 1 ==> r.items[0].level == Error && r.sources == []
                                                     && r.items[0].path == path && r.items[0].line == st.line)
            && (r.items == [] <==>
                  |st.words| == 2
                  && ((exists rel :: OwnFile(Unquote(st.words[1]), rel))
                      || exists mid :: ParentName(Unquote(st.words[1]), mid)))
  {
    hide OwnFile, ParentName, Unquote, IsParentTarget, Contains, AfterSlash, PathJoin, ParentFile;
    if |st.words| == 2 {
      if SourceReport(world, path, dir, st).items == [] {
        SourceFine(world, path, dir, st);
      }
      if rel :| OwnFile(Unquote(st.words[1]), rel) {
        OwnSource(world, path, dir, st, rel);
      }
      if mid :| ParentName(Unquote(st.words[1]), mid) {
        ParentSource(world, path, dir, st, mid);
      }
    }
  }

  /** Where a fine source line leads; every other statement sources nothing. */
  lemma SourcesWhere(world: World, path: string, dir: string, st: Stmt)
    requires st.words != [] && Fine(st)
    ensures var r := StmtReport(world, path, dir, st);
            if st.words[0] != "." && st.words[0] != "source" then r.sources == []
            else
              && |st.words| == 2
              && (forall rel :: OwnFile(Unquote(st.words[1]), rel) ==> r.sources == [PathJoin(dir, rel)])
              && (forall mid :: ParentName(Unquote(st.words[1]), mid) ==>
                   r.sources == [ParentFile(world, Unquote(st.words[1]))])
  {
    hide *;
    StmtReportIs(world, path, dir, st);
    FineMeans(st);
    if st.words[0] == "." || st.words[0] == "source" {
      forall rel | OwnFile(Unquote(st.words[1]), rel)
        ensures StmtReport(world, path, dir, st).sources == [PathJoin(dir, rel)]
      {
        OwnSource(world, path, dir, st, rel);
      }
      forall mid | ParentName(Unquote(st.words[1]), mid)
        ensures StmtReport(world, path, dir, st).sources == [ParentFile(world, Unquote(st.words[1]))]
      {
        ParentSource(world, path, dir, st, mid);
      }
    }
  }

  // ----------------------------------------------------------------- files --

  /** In whose folder a file is read: a flat recipe's files all in the recipe's, others in their own. */
  lemma FoldersAre(g: Search, file: string)
    ensures g.flat || file == g.top ==> g.Dir(file) == g.topDir
    ensures !g.flat && file != g.top ==> g.Dir(file) == g.world.dirname(file)
  {
  }

  /** The file reports of any statements, told one by one. */
  lemma {:induction false} StatementsJudged(world: World, path: string, dir: string, stmts: seq<Stmt>)
    requires Spoken(stmts)
    ensures (forall it :: it in StmtsReport(world, path, dir, stmts).items ==> it.level != Error)
       <==> forall k :: 0 <= k < |stmts| ==> Fine(stmts[k])
  {
    hide *;
    if stmts == [] {
      NothingReported(world, path, dir);
    } else {
      var init, last := stmts[..|stmts| - 1], stmts[|stmts| - 1];
      SpokenParts(stmts);
      StatementsJudged(world, path, dir, init);
      StatementJudged(world, path, dir, last);
      StmtsSplit(world, path, dir, stmts);
      assert forall k :: 0 <= k < |init| ==> init[k] == stmts[k];
    }
  }

  lemma NothingReported(world: World, path: string, dir: string)
    ensures StmtsReport(world, path, dir, []).items == []
  {
  }

  lemma SpokenParts(stmts: seq<Stmt>)
    requires Spoken(stmts) && stmts != []
    ensures Spoken(stmts[..|stmts| - 1]) && stmts[|stmts| - 1].words != []
  {
  }

  lemma StmtsSplit(world: World, path: string, dir: string, stmts: seq<Stmt>)
    requires Spoken(stmts) && stmts != [] && Spoken(stmts[..|stmts| - 1]) && stmts[|stmts| - 1].words != []
    ensures forall it :: it in StmtsReport(world, path, dir, stmts).items <==>
              it in StmtsReport(world, path, dir, stmts[..|stmts| - 1]).items
              || it in StmtReport(world, path, dir, stmts[|stmts| - 1]).items
  {
    hide StmtReport;
  }

  lemma {:induction false} MissingSpec(g: Search, path: string, sources: seq<string>)
    ensures g.MissingOf(path, sources) == [] <==> forall s :: s in sources ==> s in g.world.exists_
    ensures forall it :: it in g.MissingOf(path, sources) ==> it.level == Error
  {
    if sources != [] {
      MissingSpec(g, path, sources[..|sources| - 1]);
      assert sources == sources[..|sources| - 1] + [sources[|sources| - 1]];
    }
  }

  /** A file is clean exactly when it can be read, its text is proper, each of its statements is fine, and every file it
      sources is there. */
  lemma CleanWhen(g: Search, file: string)
    ensures Clean(g, file) <==>
              && file in g.world.text
              && Proper(g.world.text[file])
              && Accept(g.world.text[file]).Ok? && Spoken(Accept(g.world.text[file]).value)
              && (forall k :: 0 <= k < |Accept(g.world.text[file]).value| ==> Fine(Accept(g.world.text[file]).value[k]))
              && forall s :: s in g.Report(file).sources ==> s in g.world.exists_
  {
    hide Accept, StmtsReport, Proper, Fine;
    MissingSpec(g, file, g.Report(file).sources);
    var items, missing := g.Report(file).items, g.Missing(file);
    FindingsAre(g, file);
    assert missing != [] ==> missing[0] in missing;
    if file in g.world.text {
      var text := g.world.text[file];
      AcceptedWhen(text);
      AcceptSpoken(text);
      if Accept(text).Ok? {
        StatementsJudged(g.world, file, g.Dir(file), Accept(text).value);
      } else {
        UnscannedReports(g.world, file, g.Dir(file));
      }
    } else {
      UnscannedReports(g.world, file, g.Dir(file));
    }
  }

  lemma FindingsAre(g: Search, file: string)
    ensures forall it :: it in g.Findings(file) <==> it in g.Report(file).items || it in g.Missing(file)
  {
    hide FileReport;
  }

  /** An array of engine arguments draws a warning in a model.env, and nothing else draws one. */
  lemma WarnedWhen(world: World, path: string, dir: string, st: Stmt)
    requires st.words != []
    ensures (exists it :: it in StmtReport(world, path, dir, st).items && it.level == Warning) <==>
              && IsAssign(st.words[0]) && st.words[0][|st.words[0]| - 1] == '('
              && Assigns(st.words[0], "SERVE_ARGS") && BaseName(path) == "model.env"
  {
    hide *;
    var head := st.words[0];
    AssignForm(head);
    IsAssignMeans(head);
    EndsInParen(head);
    ArgsName();
    NameOf(head, "SERVE_ARGS");
    SourceJudged(world, path, dir, st);
    HeadPlain(head);
    StmtReportIs(world, path, dir, st);
    if head != "." && head != "source" && AssignLength(head) > 0 && EndsWith(head, "(") {
      WarnIs(world, path, dir, st);
    }
    OneItem(StmtReport(world, path, dir, st));
  }

  lemma ArgsName()
    ensures IsName("SERVE_ARGS")
  {
  }

  lemma WarnIs(world: World, path: string, dir: string, st: Stmt)
    requires st.words != [] && st.words[0] != "." && st.words[0] != "source" && AssignLength(st.words[0]) > 0
    requires EndsWith(st.words[0], "(")
    ensures StmtReport(world, path, dir, st).items != [] <==>
              st.words[0][..NameRun(st.words[0])] == "SERVE_ARGS" && BaseName(path) == "model.env"
  {
    hide AssignLength, BaseName, FirstCommand, NameRun;
  }

  lemma HeadPlain(head: string)
    ensures head == "." || head == "source" ==> !IsAssign(head)
  {
    hide AssignLength;
    if head == "." || head == "source" {
      if name :| Assigns(head, name) {
        AssignsLength(head, name);
        SourceRun();
        assert false;
      }
    }
  }

  lemma SourceRun()
    ensures NameRun("source") == 6 && NameRun(".") == 0
  {
    NameRunIs("source", 6);
  }

  lemma NameOf(head: string, name: string)
    requires IsName(name)
    ensures Assigns(head, name) <==> IsAssign(head) && head[..NameRun(head)] == name
  {
    AssignForm(head);
    hide AssignLength, NameRun, IsName;
    if IsAssign(head) {
      var other :| Assigns(head, other);
    }
  }

  /** A file's own name is what follows the last slash of its path. */
  lemma {:induction false} BaseIs(dir: string, base: string)
    requires '/' !in base
    ensures BaseName(base) == base && BaseName(dir + "/" + base) == base
    decreases |dir|
  {
    var path := dir + "/" + base;
    assert path[|dir|] == '/' && '/' in path;
    if '/' in dir {
      AfterMid(dir, "/" + base);
      assert dir + ("/" + base) == path;
      assert AfterSlash(dir) + ("/" + base) == AfterSlash(dir) + "/" + base;
      BaseIs(AfterSlash(dir), base);
    } else {
      AfterPrefix(dir, base);
    }
  }

  lemma {:induction false} AfterMid(dir: string, rest: string)
    requires '/' in dir
    ensures AfterSlash(dir + rest) == AfterSlash(dir) + rest
  {
    assert (dir + rest)[0] == dir[0] && (dir + rest)[1..] == dir[1..] + rest;
    if dir[0] != '/' {
      AfterMid(dir[1..], rest);
    }
  }
}
