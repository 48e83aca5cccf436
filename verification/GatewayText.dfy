/** How rack reads the lines of a config, told as the patterns it matches: which lines are items and under what name,
    which open the list, which end it; and what it reads back of the lines it writes. */
module GatewayText {
  import opened Prelude
  import opened Text
  import opened Gateway
  import opened GatewayConfig

  // ------------------------------------------------------------------- items --

  /** What may stand around a name: a quote, or none. */
  predicate MaybeQuote(q: string) { q == "" || q == "'" || q == "\"" }

  /** Nothing, or a comment. */
  predicate MaybeComment(s: string) { s == "" || s[0] == '#' }

  predicate NameText(name: string) {
    name != "" && forall k :: 0 <= k < |name| ==>
      name[k] != '\'' && name[k] != '"' && name[k] != '#' && !IsSpace(name[k])
  }

  /** What is around a name after the dash: spaces before the key and after it, quotes, spaces and a comment at
      the end. */
  datatype Around = Around(b: string, c: string, q: string, r: string, d: string, rest: string)

  predicate Fitting(w: Around) {
    && AllSpace(w.b) && AllSpace(w.c) && AllSpace(w.d) && MaybeQuote(w.q) && MaybeQuote(w.r) && MaybeComment(w.rest)
  }

  /** What follows the dash of an item. */
  function Spelled(name: string, w: Around): string {
    w.b + "model_name:" + w.c + w.q + name + w.r + w.d + w.rest
  }

  predicate AfterDash(s: string, name: string, w: Around) { s == Spelled(name, w) && NameText(name) && Fitting(w) }

  /** The pattern of a list item's first line: spaces, a dash, and its name. */
  predicate ItemForm(ln: string, name: string, space: string, w: Around) {
    ln == space + "-" + Spelled(name, w) && AllSpace(space) && NameText(name) && Fitting(w)
  }

  lemma DropIs(space: string, rest: string)
    requires AllSpace(space) && (rest == "" || !IsSpace(rest[0]))
    ensures DropSpace(space + rest) == rest && Lead(space + rest) == |space|
  {
    LeadUnique(space + rest, |space|);
    assert (space + rest)[|space|..] == rest;
  }

  lemma Dropped(s: string) returns (space: string)
    ensures s == space + DropSpace(s) && AllSpace(space)
    ensures DropSpace(s) == "" || !IsSpace(DropSpace(s)[0])
  {
    space := s[..Lead(s)];
  }

  lemma QuoteDropped(s: string) returns (q: string)
    ensures s == q + DropQuote(s) && MaybeQuote(q)
  {
    q := if s != "" && IsQuote(s[0]) then [s[0]] else "";
    assert q == "" ==> DropQuote(s) == s;
  }

  lemma DropQuoteIs(q: string, rest: string)
    requires MaybeQuote(q) && (rest == "" || (rest[0] != '\'' && rest[0] != '"'))
    ensures DropQuote(q + rest) == rest
  {
    if q == "" {
      assert q + rest == rest;
    } else {
      assert (q + rest)[1..] == rest;
    }
  }

  lemma {:induction false} NameRunIs(name: string, rest: string)
    requires NameText(name)
    requires rest == "" || IsQuote(rest[0]) || rest[0] == '#' || IsSpace(rest[0])
    ensures NameRun(name + rest) == |name|
  {
    var s := name + rest;
    assert s[1..] == name[1..] + rest;
    if |name| > 1 {
      NameRunIs(name[1..], rest);
    } else {
      assert s[1..] == rest;
    }
  }

  lemma {:induction false} RunIsName(s: string)
    requires NameRun(s) > 0
    ensures NameText(s[..NameRun(s)])
  {
    if NameRun(s[1..]) > 0 {
      RunIsName(s[1..]);
      assert s[..NameRun(s)] == [s[0]] + s[1..][..NameRun(s[1..])];
    }
  }

  /** What follows the key. */
  lemma TailForm(u: string, name: string, r: string, d: string, rest: string)
    requires u == name + r + d + rest && AllSpace(d) && MaybeQuote(r) && NameText(name) && MaybeComment(rest)
    ensures NameRun(u) == |name| && u[..|name|] == name && DropSpace(DropQuote(u[|name|..])) == rest
  {
    hide NameRun, DropSpace, DropQuote;
    assert u == name + (r + d + rest);
    NameRunIs(name, r + d + rest);
    assert u[|name|..] == r + (d + rest);
    DropQuoteIs(r, d + rest);
    DropIs(d, rest);
  }

  lemma NameForm(s: string, name: string) returns (w: Around)
    requires NameAfterDash(s) == Some(name)
    ensures AfterDash(s, name, w)
  {
    hide NameRun, DropSpace, DropQuote, NameText, AllSpace, Spelled;
    var t := DropSpace(s);
    var v := DropSpace(t[|KEY|..]);
    var u := DropQuote(v);
    var n := NameRun(u);
    RunIsName(u);
    var b := Dropped(s);
    var c := Dropped(t[|KEY|..]);
    var q := QuoteDropped(v);
    var r := QuoteDropped(u[n..]);
    var d := Dropped(DropQuote(u[n..]));
    var rest := DropSpace(DropQuote(u[n..]));
    assert t == KEY + t[|KEY|..] && u == u[..n] + u[n..];
    w := Around(b, c, q, r, d, rest);
    Nested(name, w);
  }

  lemma Nested(name: string, w: Around)
    ensures Spelled(name, w) == w.b + (KEY + (w.c + (w.q + (name + (w.r + (w.d + w.rest))))))
  {
    Flat(w.b, KEY, w.c, w.q, name, w.r, w.d, w.rest);
  }

  lemma Flat(a: string, b: string, c: string, d: string, e: string, f: string, g: string, h: string)
    ensures a + (b + (c + (d + (e + (f + (g + h)))))) == a + b + c + d + e + f + g + h
  {
  }

  lemma FormName(s: string, name: string, w: Around)
    requires AfterDash(s, name, w)
    ensures NameAfterDash(s) == Some(name)
  {
    hide NameRun, DropSpace, DropQuote, AllSpace, IsSpace, Spelled, NameText, MaybeQuote, MaybeComment;
    Nested(name, w);
    var u := name + (w.r + (w.d + w.rest));
    var v := w.q + u;
    var t := KEY + (w.c + v);
    assert t[|KEY|..] == w.c + v;
    assert u == name + w.r + w.d + w.rest;
    Visible(name, w.q, u);
    DropIs(w.b, t);
    DropIs(w.c, v);
    DropQuoteIs(w.q, u);
    TailForm(u, name, w.r, w.d, w.rest);
    NameIs(s, t, v, u, name, w.rest);
  }

  lemma Visible(name: string, q: string, u: string)
    requires NameText(name) && MaybeQuote(q) && name <= u
    ensures name != "" && u != "" && u[0] != '\'' && u[0] != '"' && !IsSpace(KEY[0])
    ensures q + u != "" && !IsSpace((q + u)[0])
  {
    assert u[0] == name[0];
    assert q == "" ==> q + u == u;
  }

  lemma NameIs(s: string, t: string, v: string, u: string, name: string, rest: string)
    requires DropSpace(s) == t && KEY <= t && DropSpace(t[|KEY|..]) == v && DropQuote(v) == u
    requires NameRun(u) == |name| > 0 && u[..|name|] == name
    requires DropSpace(DropQuote(u[|name|..])) == rest && MaybeComment(rest)
    ensures NameAfterDash(s) == Some(name)
  {
    hide NameRun, DropSpace, DropQuote;
  }

  /** A line is a list item of some name exactly when it has the form of one. */
  lemma ItemWhen(ln: string, name: string)
    ensures ItemName(ln) == Some(name) <==> exists space, w :: ItemForm(ln, name, space, w)
  {
    hide NameAfterDash, DropSpace, AllSpace, NameText, Spelled, Fitting, Lead;
    if ItemName(ln) == Some(name) {
      var space := Dropped(ln);
      var s := DropSpace(ln)[1..];
      var w := NameForm(s, name);
      assert ln == space + ("-" + s);
      assert space + ("-" + Spelled(name, w)) == space + "-" + Spelled(name, w);
      assert ItemForm(ln, name, space, w);
    }
    if space, w :| ItemForm(ln, name, space, w) {
      FormItem(ln, name, space, w);
    }
  }

  /** And then its dash is where its spaces end. */
  lemma FormItem(ln: string, name: string, space: string, w: Around)
    requires ItemForm(ln, name, space, w)
    ensures ItemName(ln) == Some(name) && Lead(ln) == |space|
  {
    hide NameAfterDash, DropSpace, AllSpace, NameText, Spelled, Fitting, Lead, IsSpace;
    var s := Spelled(name, w);
    FormName(s, name, w);
    DashVisible();
    assert space + "-" + s == space + ("-" + s);
    DropIs(space, "-" + s);
    assert ("-" + s)[1..] == s;
  }

  lemma DashVisible()
    ensures !IsSpace('-')
  {
  }

  // ---------------------------------------------------------------- the list --

  /** A line opens the list exactly when it is the key at column 0, with nothing after it but a comment. */
  lemma ListWhen(ln: string)
    ensures IsModelList(ln) <==> exists space, rest :: OpensList(ln, space, rest)
  {
    hide DropSpace, AllSpace;
    if IsModelList(ln) {
      var tail := ln[|SECTION|..];
      var space := Dropped(tail);
      assert ln == SECTION + tail;
      assert OpensList(ln, space, DropSpace(tail));
    }
    if space, rest :| OpensList(ln, space, rest) {
      assert ln == SECTION + (space + rest) && ln[|SECTION|..] == space + rest;
      HashVisible();
      DropIs(space, rest);
      assert SECTION <= ln;
    }
  }

  predicate OpensList(ln: string, space: string, rest: string) {
    ln == "model_list:" + space + rest && AllSpace(space) && MaybeComment(rest)
  }

  lemma HashVisible()
    ensures !IsSpace('#')
  {
  }

  /** The list goes on over empty lines, indented ones and comments, and ends at any other. */
  lemma LeavesWhen(ln: string)
    ensures !LeavesSection(ln) <==> ln == "" || " " <= ln || "\t" <= ln || "#" <= ln
  {
  }

  /** The indentation of new routes is that of the first item before the list ends, or two spaces. */
  lemma {:induction false} IndentWhere(ls: seq<string>, k: nat)
    requires k <= |ls| && (forall j :: 0 <= j < k ==> !LeavesSection(ls[j]) && ItemName(ls[j]) == None)
    ensures k < |ls| && !LeavesSection(ls[k]) && ItemName(ls[k]).Some? ==> ItemIndent(ls) == ls[k][..Lead(ls[k])]
    ensures k == |ls| || LeavesSection(ls[k]) ==> ItemIndent(ls) == "  "
  {
    hide ItemName, Lead, LeavesSection;
    if k > 0 {
      assert forall j :: 0 <= j < k - 1 ==> ls[1..][j] == ls[j + 1];
      IndentWhere(ls[1..], k - 1);
    }
  }

  // --------------------------------------------------------------- the route --

  /** What a line says of a key. */
  function Field(ln: string, key: string): Option<string> {
    var s := DropSpace(ln);
    if key + ": " <= s then Some(s[|key| + 2..]) else None
  }

  lemma FieldIs(ind: string, key: string, value: string)
    requires AllSpace(ind) && key != "" && !IsSpace(key[0])
    ensures Field(ind + (key + ": " + value), key) == Some(value) && Lead(ind + (key + ": " + value)) == |ind|
  {
    var s := key + ": " + value;
    assert s[0] == key[0];
    DropIs(ind, s);
    assert s[|key| + 2..] == value;
  }

  lemma KeysVisible()
    ensures !IsSpace('m') && !IsSpace('a') && !IsSpace('l')
    ensures AllSpace("  ") && AllSpace("    ")
  {
  }

  lemma Spaced(a: string, b: string)
    requires AllSpace(a) && AllSpace(b)
    ensures AllSpace(a + b)
  {
  }

  /** A rendered route says what it was made from: the engine's model, its address and the key, each on its own
      line under litellm_params, all of them deeper than the dash. */
  lemma RouteSays(ind: string, name: string, served: string, apiBase: string, apiKey: string)
    requires AllSpace(ind)
    ensures var t := Render(ind, name, served, apiBase, apiKey);
            && |t| == 5
            && Lead(t[1]) == |ind| + 2 && DropSpace(t[1]) == "litellm_params:"
            && Lead(t[2]) == Lead(t[3]) == Lead(t[4]) == |ind| + 4
            && Field(t[2], "model") == Some("openai/" + served)
            && Field(t[3], "api_base") == Some(apiBase)
            && Field(t[4], "api_key") == Some(apiKey)
  {
    hide *;
    RouteLines(ind, name, served, apiBase, apiKey);
    KeysVisible();
    Spaced(ind, "  ");
    Spaced(ind, "    ");
    DropIs(ind + "  ", "litellm_params:");
    FieldIs(ind + "    ", "model", "openai/" + served);
    FieldIs(ind + "    ", "api_base", apiBase);
    FieldIs(ind + "    ", "api_key", apiKey);
  }

  lemma RouteLines(ind: string, name: string, served: string, apiBase: string, apiKey: string)
    ensures var t := Render(ind, name, served, apiBase, apiKey);
            && |t| == 5
            && t[1] == ind + "  " + "litellm_params:"
            && t[2] == ind + "    " + ("model" + ": " + ("openai/" + served))
            && t[3] == ind + "    " + ("api_base" + ": " + apiBase)
            && t[4] == ind + "    " + ("api_key" + ": " + apiKey)
  {
    Pieces(ind, "  ", "litellm_params:", "");
    assert "  " + "litellm_params:" == "  litellm_params:";
    assert "    " + ("model" + ": ") + "openai/" == "    model: openai/";
    assert "    " + ("api_base" + ": ") == "    api_base: " && "    " + ("api_key" + ": ") == "    api_key: ";
    Pieces(ind, "    ", "model" + ": " + "openai/", served);
    Pieces(ind, "    ", "api_base" + ": ", apiBase);
    Pieces(ind, "    ", "api_key" + ": ", apiKey);
  }

  lemma Pieces(ind: string, space: string, key: string, value: string)
    ensures ind + (space + key) + value == ind + space + (key + value)
  {
  }
}
