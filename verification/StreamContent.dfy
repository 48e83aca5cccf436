/** Content is conserved under any interleaving: what a client holds at the end
    is exactly what the engine sent, kind by kind and tool by tool. */
module StreamContent {
  import opened Prelude
  import opened Messages
  import opened Translator
  import opened StreamClient
  import opened StreamRuns

  /** The text of the blocks of one kind, as a function to be concatenated. */
  function Spoken(kind: Kind): Live -> string {
    (b: Live) => if b.kind == kind then b.text else ""
  }

  function ThoughtOf(p: Piece): string {
    if p.Think? then p.text else ""
  }

  function SaidOf(p: Piece): string {
    if p.Say? then p.text else ""
  }

  /** The arguments a delta brings for one engine tool index. */
  function ArgumentsFor(i: int): ToolDelta -> string {
    (d: ToolDelta) => if ToolIndex(d) == i then d.arguments else ""
  }

  // ----------------------------------------------- what the chunks carry --

  function ChoicesOf(chunk: Chunk): seq<Choice> { chunk.choices }

  function Choices(chunks: seq<Chunk>): seq<Choice> {
    FlatMap(chunks, ChoicesOf)
  }

  function ReasoningSent(c: Choice): string {
    ReasoningOf(c.delta.reasoningContent, c.delta.reasoning)
  }

  function ContentSent(c: Choice): string { c.delta.content }

  function CallsSent(c: Choice): seq<ToolDelta> { c.delta.toolCalls }

  // ----------------------------------------------- the blocks of a run --

  /** Appending to one block appends to its kind's text when it is the last, and changes no other kind's. */
  lemma AppendSpoken(blocks: seq<Live>, at: int, text: string, kind: Kind)
    requires 0 <= at < |blocks|
    requires blocks[at].kind != kind || at == |blocks| - 1
    ensures FlatMap(Append(blocks, at, text), Spoken(kind))
         == FlatMap(blocks, Spoken(kind)) + (if blocks[at].kind == kind then text else "")
  {
    var before, rest := SpokenAround(blocks, at, text, kind);
    hide *;
    SpokenIs(kind, blocks[at]);
    if blocks[at].kind == kind {
      Middle(before, blocks[at].text, text, rest);
    } else {
      Middle(before, "", text, rest);
    }
  }

  /** The text of a kind before and after one block, the same once text is appended to that block. */
  lemma SpokenAround(blocks: seq<Live>, at: int, text: string, kind: Kind) returns (before: string, rest: string)
    requires 0 <= at < |blocks|
    ensures FlatMap(blocks, Spoken(kind)) == before + Spoken(kind)(blocks[at]) + rest
    ensures FlatMap(Append(blocks, at, text), Spoken(kind))
         == before + (if blocks[at].kind == kind then blocks[at].text + text else "") + rest
    ensures at == |blocks| - 1 ==> rest == ""
  {
    var after, f := Append(blocks, at, text), Spoken(kind);
    AppendAround(blocks, at, text);
    SpokenIs(kind, after[at]);
    hide *;
    FlatMapSplit(blocks, at, f);
    FlatMapSplit(after, at, f);
    before, rest := FlatMap(blocks[..at], f), FlatMap(blocks[at + 1..], f);
    if at == |blocks| - 1 {
      FlatMapNothing(blocks[at + 1..], f);
    }
  }

  lemma Middle(a: string, b: string, text: string, c: string)
    ensures c == "" ==> a + (b + text) + c == a + b + c + text
    ensures a + b + c + "" == a + b + c
  {
  }

  lemma AppendAround(blocks: seq<Live>, at: int, text: string)
    requires 0 <= at < |blocks|
    ensures var after := Append(blocks, at, text);
            && |after| == |blocks| && after[..at] == blocks[..at] && after[at + 1..] == blocks[at + 1..]
            && after[at].kind == blocks[at].kind && after[at].text == blocks[at].text + text
  {
  }

  lemma SpokenIs(kind: Kind, b: Live)
    ensures Spoken(kind)(b) == if b.kind == kind then b.text else ""
  {
  }

  lemma WithBlockSpoken(blocks: seq<Live>, isOpen: bool, newKind: Kind, id: ToolId, name: string, kind: Kind)
    ensures FlatMap(WithBlock(blocks, isOpen, newKind, id, name), Spoken(kind)) == FlatMap(blocks, Spoken(kind))
  {
    FlatMapSnoc(blocks, Live(newKind, id, name, ""), Spoken(kind));
  }

  /** One piece adds its text to its own kind's blocks. */
  lemma StepSpoken(st: State, c: Client, p: Piece)
    requires InStep(st, c)
    ensures ToolsPlaced(st, c.blocks)
    ensures FlatMap(Placed(st, c.blocks, p), Spoken(Thinking)) == FlatMap(c.blocks, Spoken(Thinking)) + ThoughtOf(p)
    ensures FlatMap(Placed(st, c.blocks, p), Spoken(Text)) == FlatMap(c.blocks, Spoken(Text)) + SaidOf(p)
  {
    hide FlatMap;
    match p {
      case Count(_) =>
      case Finish(_, _) =>
      case Think(text) => ProseSpoken(st, c, Thinking, text, Thinking); ProseSpoken(st, c, Thinking, text, Text);
      case Say(text) => ProseSpoken(st, c, Text, text, Thinking); ProseSpoken(st, c, Text, text, Text);
      case Call(d) => CallSpoken(st, c, d, Thinking); CallSpoken(st, c, d, Text);
    }
  }

  lemma ProseSpoken(st: State, c: Client, newKind: Kind, text: string, kind: Kind)
    requires InStep(st, c)
    ensures var bs := WithBlock(c.blocks, st.kind == Some(newKind), newKind, Minted, "");
            bs != [] && FlatMap(Append(bs, |bs| - 1, text), Spoken(kind))
                     == FlatMap(c.blocks, Spoken(kind)) + (if newKind == kind then text else "")
  {
    hide FlatMap;
    var bs := WithBlock(c.blocks, st.kind == Some(newKind), newKind, Minted, "");
    WithBlockSpoken(c.blocks, st.kind == Some(newKind), newKind, Minted, "", kind);
    AppendSpoken(bs, |bs| - 1, text, kind);
  }

  lemma CallSpoken(st: State, c: Client, d: ToolDelta, kind: Kind)
    requires InStep(st, c) && kind != Tool
    ensures ToolsPlaced(st, c.blocks)
    ensures FlatMap(Placed(st, c.blocks, Call(d)), Spoken(kind)) == FlatMap(c.blocks, Spoken(kind))
  {
    hide FlatMap;
    var known := ToolIndex(d) in st.tools;
    var bs := WithBlock(c.blocks, known, Tool, IdOf(d.id), d.name);
    WithBlockSpoken(c.blocks, known, Tool, IdOf(d.id), d.name, kind);
    AppendSpoken(bs, if known then st.tools[ToolIndex(d)] else |c.blocks|, d.arguments, kind);
  }

  lemma {:induction false} RunSpoken(ps: seq<Piece>)
    ensures FlatMap(Reader(ps).blocks, Spoken(Thinking)) == FlatMap(ps, ThoughtOf)
    ensures FlatMap(Reader(ps).blocks, Spoken(Text)) == FlatMap(ps, SaidOf)
  {
    if ps != [] {
      var init, p := ps[..|ps| - 1], ps[|ps| - 1];
      hide Step, Placed;
      assert ps == init + [p];
      RunSpoken(init);
      RunInStep(init);
      ReaderGrows(init, p);
      StepSpoken(Run(BEGUN, init).st, Reader(init), p);
    }
  }

  // ------------------------------------------------------------ by tool --

  /** The tool blocks are exactly those the map names, each holding its own index's arguments. */
  ghost predicate Delivered(blocks: seq<Live>, tools: map<int, int>, calls: seq<ToolDelta>) {
    && tools.Keys == (set d | d in calls :: ToolIndex(d))
    && OneToOne(tools)
    && (forall i :: i in tools ==>
          0 <= tools[i] < |blocks| && blocks[tools[i]].kind == Tool
          && blocks[tools[i]].text == FlatMap(calls, ArgumentsFor(i)))
    && (forall b :: 0 <= b < |blocks| && blocks[b].kind == Tool ==> exists i :: i in tools && tools[i] == b)
  }

  lemma ArgumentsUnsent(calls: seq<ToolDelta>, i: int)
    requires i !in (set d | d in calls :: ToolIndex(d))
    ensures FlatMap(calls, ArgumentsFor(i)) == ""
  {
    FlatMapNothing(calls, ArgumentsFor(i));
  }

  /** What a tool delta does to the map and the blocks. */
  lemma CallPlaced(st: State, blocks: seq<Live>, d: ToolDelta)
    requires ToolsPlaced(st, blocks)
    ensures var j, after := ToolIndex(d), Placed(st, blocks, Call(d));
            var at := if j in st.tools then st.tools[j] else |blocks|;
            && Step(st, Call(d)).st.tools == st.tools[j := at]
            && |after| == (if j in st.tools then |blocks| else |blocks| + 1)
            && (forall b :: 0 <= b < |blocks|
                 ==> after[b].kind == blocks[b].kind && (b != at ==> after[b].text == blocks[b].text))
            && (j in st.tools ==> after[at].text == blocks[at].text + d.arguments)
            && (j !in st.tools ==> after[at].kind == Tool && after[at].text == d.arguments)
  {
    assert "" + d.arguments == d.arguments;
    assert ToolIndex(d) in st.tools ==> st.tools[ToolIndex(d) := st.tools[ToolIndex(d)]] == st.tools;
  }

  lemma FreshBlock(tools: map<int, int>, j: int, at: int)
    requires OneToOne(tools) && j !in tools && forall i :: i in tools ==> tools[i] < at
    ensures OneToOne(tools[j := at])
  {
  }

  lemma CallDelivered(st: State, blocks: seq<Live>, calls: seq<ToolDelta>, d: ToolDelta)
    requires ToolsPlaced(st, blocks) && Delivered(blocks, st.tools, calls)
    ensures Delivered(Placed(st, blocks, Call(d)), Step(st, Call(d)).st.tools, calls + [d])
  {
    CallPlaced(st, blocks, d);
    var j := ToolIndex(d);
    var at := if j in st.tools then st.tools[j] else |blocks|;
    var after := Placed(st, blocks, Call(d));
    hide FlatMap, Step, Placed, Delivered;
    DeliveredNext(blocks, after, st.tools, st.tools[j := at], j, at, calls, d);
  }

  /** The blocks after one more delta for tool j, whose block is at. */
  ghost predicate Grown(blocks: seq<Live>, after: seq<Live>, tools: map<int, int>, j: int, at: int, text: string) {
    && at == (if j in tools then tools[j] else |blocks|)
    && |after| == (if j in tools then |blocks| else |blocks| + 1)
    && (forall b :: 0 <= b < |blocks|
         ==> after[b].kind == blocks[b].kind && (b != at ==> after[b].text == blocks[b].text))
    && (j in tools ==> 0 <= at < |blocks| && after[at].text == blocks[at].text + text)
    && (j !in tools ==> after[at].kind == Tool && after[at].text == text)
  }

  lemma DeliveredNext(blocks: seq<Live>, after: seq<Live>, tools: map<int, int>, next: map<int, int>, j: int, at: int,
                      calls: seq<ToolDelta>, d: ToolDelta)
    requires Delivered(blocks, tools, calls) && j == ToolIndex(d) && next == tools[j := at]
    requires Grown(blocks, after, tools, j, at, d.arguments)
    ensures Delivered(after, next, calls + [d])
  {
    forall i | i in next
      ensures 0 <= next[i] < |after| && after[next[i]].kind == Tool
              && after[next[i]].text == FlatMap(calls + [d], ArgumentsFor(i))
    {
      ToolNext(blocks, after, tools, j, at, calls, d, i);
    }
    hide FlatMap, ArgumentsFor, Grown, OneToOne, ToolIndex;
    KeysNext(calls, d);
    MapNext(blocks, after, tools, next, j, at, calls, d);
  }

  lemma MapNext(blocks: seq<Live>, after: seq<Live>, tools: map<int, int>, next: map<int, int>, j: int, at: int,
                calls: seq<ToolDelta>, d: ToolDelta)
    requires Delivered(blocks, tools, calls) && next == tools[j := at]
    requires Grown(blocks, after, tools, j, at, d.arguments)
    ensures OneToOne(next) && next.Keys == tools.Keys + {j}
    ensures forall b :: 0 <= b < |after| && after[b].kind == Tool ==> exists i :: i in next && next[i] == b
  {
    hide FlatMap, ArgumentsFor, ToolIndex;
    BlocksNamed(blocks, after, tools, next, j, at);
    if j !in tools {
      FreshBlock(tools, j, at);
    } else {
      SameMap(tools, j);
    }
  }

  lemma SameMap(tools: map<int, int>, j: int)
    requires j in tools
    ensures tools[j := tools[j]] == tools
  {
  }

  lemma ToolNext(blocks: seq<Live>, after: seq<Live>, tools: map<int, int>, j: int, at: int,
                 calls: seq<ToolDelta>, d: ToolDelta, i: int)
    requires Delivered(blocks, tools, calls) && j == ToolIndex(d) && Grown(blocks, after, tools, j, at, d.arguments)
    requires i == j || i in tools
    ensures var b := if i == j then at else tools[i];
            0 <= b < |after| && after[b].kind == Tool && after[b].text == FlatMap(calls + [d], ArgumentsFor(i))
  {
    FlatMapSnoc(calls, d, ArgumentsFor(i));
    assert ArgumentsFor(i)(d) == if i == j then d.arguments else "";
    if i in tools {
      Holds(blocks, tools, calls, i);
      Apart(blocks, tools, calls, i, j);
    } else {
      ArgumentsUnsent(calls, j);
    }
    hide FlatMap, ArgumentsFor, Delivered;
  }

  lemma Holds(blocks: seq<Live>, tools: map<int, int>, calls: seq<ToolDelta>, i: int)
    requires Delivered(blocks, tools, calls) && i in tools
    ensures 0 <= tools[i] < |blocks| && blocks[tools[i]].kind == Tool
    ensures blocks[tools[i]].text == FlatMap(calls, ArgumentsFor(i))
  {
  }

  lemma Apart(blocks: seq<Live>, tools: map<int, int>, calls: seq<ToolDelta>, i: int, j: int)
    requires Delivered(blocks, tools, calls) && i in tools
    ensures i != j && j in tools ==> tools[i] != tools[j]
  {
  }

  lemma KeysNext(calls: seq<ToolDelta>, d: ToolDelta)
    ensures (set e | e in calls + [d] :: ToolIndex(e)) == (set e | e in calls :: ToolIndex(e)) + {ToolIndex(d)}
  {
  }

  lemma BlocksNamed(blocks: seq<Live>, after: seq<Live>, tools: map<int, int>, next: map<int, int>, j: int, at: int)
    requires next == tools[j := at] && at == if j in tools then tools[j] else |blocks|
    requires |after| == if j in tools then |blocks| else |blocks| + 1
    requires forall b :: 0 <= b < |blocks| ==> after[b].kind == blocks[b].kind
    requires forall b :: 0 <= b < |blocks| && blocks[b].kind == Tool ==> exists i :: i in tools && tools[i] == b
    ensures forall b :: 0 <= b < |after| && after[b].kind == Tool ==> exists i :: i in next && next[i] == b
  {
    forall b | 0 <= b < |after| && after[b].kind == Tool
      ensures exists i :: i in next && next[i] == b
    {
      if b < |blocks| {
        assert blocks[b].kind == Tool;
        var i :| i in tools && tools[i] == b;
        assert i in next && next[i] == b;
      } else {
        assert j in next && next[j] == b;
      }
    }
  }

  lemma ProseDelivered(st: State, blocks: seq<Live>, calls: seq<ToolDelta>, p: Piece)
    requires ToolsPlaced(st, blocks) && Delivered(blocks, st.tools, calls) && !p.Call?
    requires st.kind.Some? ==> blocks[st.index].kind == st.kind.value
    ensures Delivered(Placed(st, blocks, p), Step(st, p).st.tools, calls)
  {
    ProsePlaced(st, blocks, p);
    hide FlatMap, Placed, Step;
  }

  /** Prose leaves the tools and their blocks alone. */
  lemma ProsePlaced(st: State, blocks: seq<Live>, p: Piece)
    requires ToolsPlaced(st, blocks) && !p.Call?
    requires st.kind.Some? ==> blocks[st.index].kind == st.kind.value
    ensures var after := Placed(st, blocks, p);
            && Step(st, p).st.tools == st.tools
            && |after| >= |blocks|
            && (forall b :: 0 <= b < |blocks|
                 ==> after[b].kind == blocks[b].kind && (blocks[b].kind == Tool ==> after[b] == blocks[b]))
            && (forall b :: |blocks| <= b < |after| ==> after[b].kind != Tool)
  {
  }

  lemma {:induction false} RunDelivered(ps: seq<Piece>)
    ensures Delivered(Reader(ps).blocks, Run(BEGUN, ps).st.tools, FlatMap(ps, CallOf))
  {
    if ps != [] {
      var init, p := ps[..|ps| - 1], ps[|ps| - 1];
      hide Step, Placed, Delivered;
      assert ps == init + [p];
      RunDelivered(init);
      RunInStep(init);
      ReaderGrows(init, p);
      if p.Call? {
        CallDelivered(Run(BEGUN, init).st, Reader(init).blocks, FlatMap(init, CallOf), p.delta);
      } else {
        ProseDelivered(Run(BEGUN, init).st, Reader(init).blocks, FlatMap(init, CallOf), p);
        assert FlatMap(ps, CallOf) == FlatMap(init, CallOf);
      }
    }
  }

  // ------------------------------------------------- pieces and choices --

  lemma ProjectChunk<T>(chunk: Chunk, f: Piece -> seq<T>, g: Choice -> seq<T>)
    requires forall u :: f(Count(u)) == []
    requires forall c :: FlatMap(ChoicePieces(c), f) == g(c)
    ensures FlatMap(ChunkPieces(chunk), f) == FlatMap(chunk.choices, g)
  {
    hide ChoicePieces;
    var counted := if chunk.usage.Some? then [Count(chunk.usage.value)] else [];
    ProjectChoices(chunk.choices, f, g);
    FlatMapAppend(counted, FlatMap(chunk.choices, ChoicePieces), f);
    FlatMapNothing(counted, f);
  }

  /** A reading of the pieces that is a reading of each choice is a reading of the chunks' choices. */
  lemma {:induction false} ProjectPieces<T>(chunks: seq<Chunk>, f: Piece -> seq<T>, g: Choice -> seq<T>)
    requires forall u :: f(Count(u)) == []
    requires forall c :: FlatMap(ChoicePieces(c), f) == g(c)
    ensures FlatMap(Pieces(chunks), f) == FlatMap(Choices(chunks), g)
  {
    hide ChoicePieces, ChunkPieces;
    if chunks != [] {
      var init, chunk := chunks[..|chunks| - 1], chunks[|chunks| - 1];
      ProjectPieces(init, f, g);
      FlatMapAppend(Pieces(init), ChunkPieces(chunk), f);
      FlatMapAppend(Choices(init), chunk.choices, g);
      ProjectChunk(chunk, f, g);
    }
  }

  lemma {:induction false} ProjectChoices<T>(cs: seq<Choice>, f: Piece -> seq<T>, g: Choice -> seq<T>)
    requires forall c :: FlatMap(ChoicePieces(c), f) == g(c)
    ensures FlatMap(FlatMap(cs, ChoicePieces), f) == FlatMap(cs, g)
  {
    hide ChoicePieces;
    if cs != [] {
      var init, c := cs[..|cs| - 1], cs[|cs| - 1];
      ProjectChoices(init, f, g);
      FlatMapAppend(FlatMap(init, ChoicePieces), ChoicePieces(c), f);
    }
  }

  lemma {:induction false} CallsOfPieces(calls: seq<ToolDelta>)
    ensures FlatMap(CallPieces(calls), CallOf) == calls
  {
    if calls != [] {
      var init := calls[..|calls| - 1];
      assert CallPieces(calls) == CallPieces(init) + [Call(calls[|calls| - 1])];
      CallsOfPieces(init);
      FlatMapSnoc(CallPieces(init), Call(calls[|calls| - 1]), CallOf);
    }
  }

  /** The four parts of a choice's pieces, read one by one. */
  lemma ChoiceParts<T>(c: Choice, f: Piece -> seq<T>)
    ensures var r := ReasoningSent(c);
            FlatMap(ChoicePieces(c), f)
            == (if r != "" then f(Think(r)) else []) + (if c.delta.content != "" then f(Say(c.delta.content)) else [])
               + FlatMap(CallPieces(c.delta.toolCalls), f)
               + (if c.finish != "" then f(Finish(c.finish, c.matched)) else [])
  {
    var r := ReasoningSent(c);
    var think := if r != "" then [Think(r)] else [];
    var say := if c.delta.content != "" then [Say(c.delta.content)] else [];
    var calls := CallPieces(c.delta.toolCalls);
    var finish := if c.finish != "" then [Finish(c.finish, c.matched)] else [];
    assert ChoicePieces(c) == think + say + calls + finish;
    FlatMapOne(Think(r), f);
    FlatMapOne(Say(c.delta.content), f);
    FlatMapOne(Finish(c.finish, c.matched), f);
    hide *;
    FlatMapAppend(think + say + calls, finish, f);
    FlatMapAppend(think + say, calls, f);
    FlatMapAppend(think, say, f);
  }

  lemma ChoiceThought(c: Choice)
    ensures FlatMap(ChoicePieces(c), ThoughtOf) == ReasoningSent(c)
  {
    ChoiceParts(c, ThoughtOf);
    FlatMapNothing(CallPieces(c.delta.toolCalls), ThoughtOf);
    hide FlatMap, ChoicePieces, CallPieces, ReasoningSent;
  }

  lemma ChoiceSaid(c: Choice)
    ensures FlatMap(ChoicePieces(c), SaidOf) == ContentSent(c)
  {
    ChoiceParts(c, SaidOf);
    FlatMapNothing(CallPieces(c.delta.toolCalls), SaidOf);
    hide FlatMap, ChoicePieces, CallPieces, ReasoningSent;
  }

  lemma ChoiceCalls(c: Choice)
    ensures FlatMap(ChoicePieces(c), CallOf) == CallsSent(c)
  {
    ChoiceParts(c, CallOf);
    CallsOfPieces(c.delta.toolCalls);
    hide FlatMap, ChoicePieces, CallPieces, ReasoningSent;
  }

  lemma ReasoningIsPieces(chunks: seq<Chunk>)
    ensures FlatMap(Pieces(chunks), ThoughtOf) == FlatMap(Choices(chunks), ReasoningSent)
  {
    hide FlatMap, ChoicePieces, ReasoningSent, ContentSent, CallsSent, Pieces, Choices;
    forall c
      ensures FlatMap(ChoicePieces(c), ThoughtOf) == ReasoningSent(c)
    {
      ChoiceThought(c);
    }
    ProjectPieces(chunks, ThoughtOf, ReasoningSent);
  }

  lemma ContentIsPieces(chunks: seq<Chunk>)
    ensures FlatMap(Pieces(chunks), SaidOf) == FlatMap(Choices(chunks), ContentSent)
  {
    hide FlatMap, ChoicePieces, ReasoningSent, ContentSent, CallsSent, Pieces, Choices;
    forall c
      ensures FlatMap(ChoicePieces(c), SaidOf) == ContentSent(c)
    {
      ChoiceSaid(c);
    }
    ProjectPieces(chunks, SaidOf, ContentSent);
  }

  lemma CallsArePieces(chunks: seq<Chunk>)
    ensures FlatMap(Pieces(chunks), CallOf) == FlatMap(Choices(chunks), CallsSent)
  {
    hide FlatMap, ChoicePieces, ReasoningSent, ContentSent, CallsSent, Pieces, Choices;
    forall c
      ensures FlatMap(ChoicePieces(c), CallOf) == CallsSent(c)
    {
      ChoiceCalls(c);
    }
    ProjectPieces(chunks, CallOf, CallsSent);
  }

  /** At the end of any stream the client's thinking is all reasoning sent, its text all content sent, and
      there is one tool block per engine tool index, holding all arguments sent for that index. */
  lemma ContentConserved(stops: seq<string>, chunks: seq<Chunk>)
    ensures var blocks := Fold(FRESH, Transcript(stops, chunks)).blocks;
            && FlatMap(blocks, Spoken(Thinking)) == FlatMap(Choices(chunks), ReasoningSent)
            && FlatMap(blocks, Spoken(Text)) == FlatMap(Choices(chunks), ContentSent)
            && exists tools :: Delivered(blocks, tools, FlatMap(Choices(chunks), CallsSent))
  {
    TranscriptRead(stops, chunks);
    RunSpoken(Pieces(chunks));
    RunDelivered(Pieces(chunks));
    ReasoningIsPieces(chunks);
    ContentIsPieces(chunks);
    CallsArePieces(chunks);
  }
}
