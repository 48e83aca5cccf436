/** Streaming agrees with not streaming: the message a client assembles from
    the translated stream against from_openai of the reply the chunks add up to. */
module StreamAgreement {
  import opened Prelude
  import opened Messages
  import opened Translator
  import opened StreamClient
  import opened StreamRuns
  import opened StreamContent

  // --------------------------------------- the reply chunks add up to --

  datatype IndexedCall = IndexedCall(index: int, call: ToolCall)

  /** Where a tool index sits in the calls so far; |calls| when it is new. */
  function Position(calls: seq<IndexedCall>, i: int): (k: nat)
    ensures k <= |calls|
    ensures k < |calls| ==> calls[k].index == i
    ensures forall j :: 0 <= j < k ==> calls[j].index != i
  {
    if calls == [] then 0 else if calls[0].index == i then 0 else 1 + Position(calls[1..], i)
  }

  function AddCall(calls: seq<IndexedCall>, d: ToolDelta): seq<IndexedCall> {
    var k := Position(calls, ToolIndex(d));
    if k == |calls| then calls + [IndexedCall(ToolIndex(d), ToolCall(d.id, d.name, d.arguments))]
    else
      var was := calls[k].call;
      calls[k := calls[k].(call := was.(arguments := was.arguments + d.arguments))]
  }

  /** One call per index, in the order the indices first came; the first delta
      names it, and every delta's arguments are appended. */
  function AddedCalls(ds: seq<ToolDelta>): seq<IndexedCall> {
    if ds == [] then [] else AddCall(AddedCalls(ds[..|ds| - 1]), ds[|ds| - 1])
  }

  function CallsOnly(calls: seq<IndexedCall>): seq<ToolCall> {
    seq(|calls|, k requires 0 <= k < |calls| => calls[k].call)
  }

  function ReasoningContentSent(c: Choice): string { c.delta.reasoningContent }

  function OtherReasoningSent(c: Choice): string { c.delta.reasoning }

  function FinishSent(c: Choice): seq<(string, Matched)> {
    if c.finish != "" then [(c.finish, c.matched)] else []
  }

  function UsageSent(chunk: Chunk): seq<Usage> {
    if chunk.usage.Some? then [chunk.usage.value] else []
  }

  function LastFinish(finishes: seq<(string, Matched)>): (string, Matched) {
    if finishes == [] then ("", Unmatched) else finishes[|finishes| - 1]
  }

  function LastUsage(usages: seq<Usage>): Option<Usage> {
    if usages == [] then None else Some(usages[|usages| - 1])
  }

  /** The reply the chunks add up to, field by field (a chunk's choices, normally one, are read as one). */
  function AddedUp(chunks: seq<Chunk>): Reply {
    var cs := Choices(chunks);
    var (finish, matched) := LastFinish(FlatMap(cs, FinishSent));
    Reply([ReplyChoice(ChatMessage(FlatMap(cs, ReasoningContentSent), FlatMap(cs, OtherReasoningSent),
                                   FlatMap(cs, ContentSent), CallsOnly(AddedCalls(FlatMap(cs, CallsSent)))),
                       finish, matched)],
          LastUsage(FlatMap(chunks, UsageSent)))
  }

  // ------------------------------------------- the message a client has --

  function BlockOf<J>(parse: string -> Option<J>, b: Live): Block<J> {
    match b.kind
    case Thinking => ThinkingBlock(b.text)
    case Text => TextBlock(b.text)
    case Tool => ToolBlock(b.id, b.name, DecodeInput(parse, b.text))
  }

  function BlocksOf<J>(parse: string -> Option<J>, blocks: seq<Live>): seq<Block<J>> {
    seq(|blocks|, k requires 0 <= k < |blocks| => BlockOf(parse, blocks[k]))
  }

  function Assembled<J>(parse: string -> Option<J>, c: Client): Message<J> {
    Message(BlocksOf(parse, c.blocks), c.stop, c.inputTokens, c.outputTokens)
  }

  // ------------------------------------------------------- when they agree --

  /** Reasoning comes before content, and content before tool calls. */
  function Rank(p: Piece): Option<nat> {
    match p
    case Think(_) => Some(0)
    case Say(_) => Some(1)
    case Call(_) => Some(2)
    case _ => None
  }

  ghost predicate InOrder(ps: seq<Piece>) {
    forall i, j :: 0 <= i < j < |ps| && Rank(ps[i]).Some? && Rank(ps[j]).Some?
        ==> Rank(ps[i]).value <= Rank(ps[j]).value
  }

  /** An engine that names its reasoning field one way: reasoning_content is never
      used, or no delta carries its reasoning only in the other field. */
  ghost predicate OneReasoningField(cs: seq<Choice>) { NoneFirst(cs) || NoneOnlyOther(cs) }

  /** Deltas that carry reasoning only in the field that is read second. */
  ghost predicate NoneOnlyOther(cs: seq<Choice>) {
    forall k :: 0 <= k < |cs| && cs[k].delta.reasoningContent == "" ==> cs[k].delta.reasoning == ""
  }

  ghost predicate NoneFirst(cs: seq<Choice>) {
    forall k :: 0 <= k < |cs| ==> cs[k].delta.reasoningContent == ""
  }

  lemma FieldsSnoc(cs: seq<Choice>)
    requires cs != []
    ensures var init, c := cs[..|cs| - 1], cs[|cs| - 1];
            && (NoneOnlyOther(cs) <==>
                 NoneOnlyOther(init) && (c.delta.reasoningContent == "" ==> c.delta.reasoning == ""))
            && (NoneFirst(cs) <==> NoneFirst(init) && c.delta.reasoningContent == "")
  {
    var init := cs[..|cs| - 1];
    assert forall k :: 0 <= k < |init| ==> init[k] == cs[k];
  }

  lemma {:induction false} FirstFieldJoined(cs: seq<Choice>)
    ensures if NoneOnlyOther(cs) then FlatMap(cs, ReasoningContentSent) == FlatMap(cs, ReasoningSent)
            else |FlatMap(cs, ReasoningContentSent)| < |FlatMap(cs, ReasoningSent)|
  {
    if cs != [] {
      FirstFieldJoined(cs[..|cs| - 1]);
      FieldsSnoc(cs);
      hide NoneOnlyOther, NoneFirst;
    }
  }

  lemma {:induction false} OtherFieldJoined(cs: seq<Choice>)
    ensures NoneFirst(cs) ==> FlatMap(cs, OtherReasoningSent) == FlatMap(cs, ReasoningSent)
  {
    if cs != [] {
      OtherFieldJoined(cs[..|cs| - 1]);
      FieldsSnoc(cs);
      hide NoneOnlyOther, NoneFirst;
    }
  }

  lemma {:induction false} NoneFirstSent(cs: seq<Choice>)
    ensures NoneFirst(cs) <==> FlatMap(cs, ReasoningContentSent) == ""
  {
    if cs != [] {
      NoneFirstSent(cs[..|cs| - 1]);
      FieldsSnoc(cs);
      hide NoneOnlyOther, NoneFirst;
    }
  }

  /** The reasoning streamed is the reasoning of the whole reply exactly when the engine uses one field. */
  lemma ReasoningAgrees(cs: seq<Choice>)
    ensures FlatMap(cs, ReasoningSent)
            == ReasoningOf(FlatMap(cs, ReasoningContentSent), FlatMap(cs, OtherReasoningSent))
       <==> OneReasoningField(cs)
  {
    hide FlatMap;
    FirstFieldJoined(cs);
    OtherFieldJoined(cs);
    NoneFirstSent(cs);
  }

  // ------------------------------------------------- pieces in order --

  /** Chunk pieces never carry empty prose. */
  ghost predicate Substantive(ps: seq<Piece>) {
    forall k :: 0 <= k < |ps| ==> (ps[k].Think? ==> ps[k].text != "") && (ps[k].Say? ==> ps[k].text != "")
  }

  lemma {:induction false} ChoicesSubstantive(cs: seq<Choice>)
    ensures Substantive(FlatMap(cs, ChoicePieces))
  {
    if cs != [] {
      ChoicesSubstantive(cs[..|cs| - 1]);
    }
  }

  lemma {:induction false} ChunksSubstantive(chunks: seq<Chunk>)
    ensures Substantive(Pieces(chunks))
  {
    hide ChoicePieces;
    if chunks != [] {
      ChunksSubstantive(chunks[..|chunks| - 1]);
      ChoicesSubstantive(chunks[|chunks| - 1].choices);
    }
  }

  function ProseLive(thinking: string, text: string): seq<Live> {
    (if thinking != "" then [Live(Thinking, Minted, "", thinking)] else [])
    + (if text != "" then [Live(Text, Minted, "", text)] else [])
  }

  function ToolLive(calls: seq<IndexedCall>): seq<Live> {
    seq(|calls|, k requires 0 <= k < |calls| =>
      Live(Tool, IdOf(calls[k].call.id), calls[k].call.name, calls[k].call.arguments))
  }

  /** What pieces in order leave: one thinking block, one text block, then the tools as they came. */
  ghost predicate Settled(st: State, blocks: seq<Live>, thinking: string, text: string, calls: seq<IndexedCall>) {
    && blocks == ProseLive(thinking, text) + ToolLive(calls)
    && st.index == |blocks| - 1
    && st.kind == (if calls != [] then Some(Tool) else if text != "" then Some(Text)
                   else if thinking != "" then Some(Thinking) else None)
    && (forall i :: i in st.tools <==> Position(calls, i) < |calls|)
    && (forall i :: i in st.tools ==> st.tools[i] == |ProseLive(thinking, text)| + Position(calls, i))
  }

  lemma ThinkSettled(st: State, blocks: seq<Live>, thinking: string, text: string)
    requires Settled(st, blocks, thinking, "", []) && ToolsPlaced(st, blocks) && text != ""
    ensures Settled(Step(st, Think(text)).st, Placed(st, blocks, Think(text)), thinking + text, "", [])
  {
    assert Placed(st, blocks, Think(text)) == [Live(Thinking, Minted, "", thinking + text)];
  }

  lemma SaySettled(st: State, blocks: seq<Live>, thinking: string, said: string, text: string)
    requires Settled(st, blocks, thinking, said, []) && ToolsPlaced(st, blocks) && text != ""
    ensures Settled(Step(st, Say(text)).st, Placed(st, blocks, Say(text)), thinking, said + text, [])
  {
    assert Placed(st, blocks, Say(text)) == ProseLive(thinking, "") + [Live(Text, Minted, "", said + text)];
  }

  lemma AddCallPosition(calls: seq<IndexedCall>, d: ToolDelta, i: int)
    ensures var after := AddCall(calls, d);
            Position(after, i) == if Position(calls, i) < |calls| || i == ToolIndex(d) then Position(calls, i)
                else |after|
  {
    var after := AddCall(calls, d);
    var k, k' := Position(calls, i), Position(after, i);
    assert forall j :: 0 <= j < |calls| ==> after[j].index == calls[j].index;
    if k < |calls| || i == ToolIndex(d) {
      assert k < |after| && after[k].index == i;
    }
  }

  lemma CallPlaced(st: State, blocks: seq<Live>, thinking: string, text: string, calls: seq<IndexedCall>, d: ToolDelta)
    requires Settled(st, blocks, thinking, text, calls) && ToolsPlaced(st, blocks)
    ensures Placed(st, blocks, Call(d)) == ProseLive(thinking, text) + ToolLive(AddCall(calls, d))
    ensures |ToolLive(AddCall(calls, d))| == |AddCall(calls, d)| && |ToolLive(calls)| == |calls|
    ensures AddCall(calls, d) != []
    ensures |AddCall(calls, d)| == |calls| + if Position(calls, ToolIndex(d)) == |calls| then 1 else 0
  {
    var k, after := Position(calls, ToolIndex(d)), AddCall(calls, d);
    if k == |calls| {
      assert ToolLive(after) == ToolLive(calls) + [Live(Tool, IdOf(d.id), d.name, d.arguments)];
      assert "" + d.arguments == d.arguments;
    } else {
      var b := ToolLive(calls)[k];
      assert ToolLive(after) == ToolLive(calls)[k := b.(text := b.text + d.arguments)];
    }
  }

  lemma CallSettled(st: State, blocks: seq<Live>, thinking: string, text: string, calls: seq<IndexedCall>, d: ToolDelta)
    requires Settled(st, blocks, thinking, text, calls) && ToolsPlaced(st, blocks)
    ensures Settled(Step(st, Call(d)).st, Placed(st, blocks, Call(d)), thinking, text, AddCall(calls, d))
  {
    var after := AddCall(calls, d);
    CallPlaced(st, blocks, thinking, text, calls, d);
    hide ProseLive, ToolLive, Placed, AddCall;
    forall j
      ensures j in Step(st, Call(d)).st.tools <==> Position(after, j) < |after|
      ensures j in Step(st, Call(d)).st.tools ==>
                Step(st, Call(d)).st.tools[j] == |ProseLive(thinking, text)| + Position(after, j)
    {
      AddCallPosition(calls, d, j);
    }
  }

  /** A piece in order comes after nothing that ranks above it. */
  lemma OrderLeaves(ps: seq<Piece>, p: Piece)
    requires InOrder(ps + [p])
    ensures InOrder(ps)
    ensures p.Think? ==> FlatMap(ps, SaidOf) == ""
    ensures p.Think? || p.Say? ==> FlatMap(ps, CallOf) == []
  {
    var all := ps + [p];
    assert forall k :: 0 <= k < |ps| ==> all[k] == ps[k];
    assert all[|ps|] == p;
    if p.Think? {
      FlatMapNothing(ps, SaidOf);
    }
    if p.Think? || p.Say? {
      FlatMapNothing(ps, CallOf);
    }
  }

  /** Pieces in order leave their content in canonical blocks. */
  lemma {:induction false} OrderedSettled(ps: seq<Piece>)
    requires InOrder(ps) && Substantive(ps)
    ensures Settled(Run(BEGUN, ps).st, Reader(ps).blocks, FlatMap(ps, ThoughtOf), FlatMap(ps, SaidOf),
                    AddedCalls(FlatMap(ps, CallOf)))
  {
    hide FlatMap, Step, Placed, InOrder, Fold;
    var init, p: Piece := [], Finish("", Unmatched);
    if ps == [] {
      NothingSettled();
    } else {
      init, p := ps[..|ps| - 1], ps[|ps| - 1];
      assert ps == init + [p];
      OrderLeaves(init, p);
      OrderedSettled(init);
      ReaderGrows(init, p);
      FlatMapSnoc(init, p, ThoughtOf);
      FlatMapSnoc(init, p, SaidOf);
      FlatMapSnoc(init, p, CallOf);
      StepSettled(init, p);
    }
  }

  lemma NothingSettled()
    ensures Settled(Run(BEGUN, []).st, Reader([]).blocks, FlatMap([], ThoughtOf), FlatMap([], SaidOf),
                    AddedCalls(FlatMap([], CallOf)))
  {
  }

  lemma StepSettled(ps: seq<Piece>, p: Piece)
    requires Settled(Run(BEGUN, ps).st, Reader(ps).blocks, FlatMap(ps, ThoughtOf), FlatMap(ps, SaidOf),
                     AddedCalls(FlatMap(ps, CallOf)))
    requires p.Think? ==> p.text != "" && FlatMap(ps, SaidOf) == ""
    requires p.Say? ==> p.text != ""
    requires p.Think? || p.Say? ==> FlatMap(ps, CallOf) == []
    ensures Settled(Run(BEGUN, ps + [p]).st, Reader(ps + [p]).blocks, FlatMap(ps, ThoughtOf) + ThoughtOf(p),
                    FlatMap(ps, SaidOf) + SaidOf(p), AddedCalls(FlatMap(ps, CallOf) + CallOf(p)))
  {
    hide FlatMap, Fold, Run, Settled;
    ReaderGrows(ps, p);
    var st, blocks := Run(BEGUN, ps).st, Reader(ps).blocks;
    var thinking, said, ds := FlatMap(ps, ThoughtOf), FlatMap(ps, SaidOf), FlatMap(ps, CallOf);
    assert thinking + "" == thinking && said + "" == said && ds + [] == ds;
    match p {
      case Think(text) => ThinkSettled(st, blocks, thinking, text);
      case Say(text) => SaySettled(st, blocks, thinking, said, text);
      case Call(d) =>
        assert (ds + [d])[..|ds|] == ds;
        CallSettled(st, blocks, thinking, said, AddedCalls(ds), d);
      case _ =>
        QuietSettled(st, blocks, thinking, said, AddedCalls(ds), p);
    }
  }

  lemma QuietSettled(st: State, blocks: seq<Live>, thinking: string, text: string, calls: seq<IndexedCall>, p: Piece)
    requires Settled(st, blocks, thinking, text, calls) && ToolsPlaced(st, blocks) && Rank(p) == None
    ensures Settled(Step(st, p).st, Placed(st, blocks, p), thinking, text, calls)
  {
  }

  // ------------------------------------------------ pieces out of order --

  function KindRank(kind: Kind): nat {
    match kind
    case Thinking => 0
    case Text => 1
    case Tool => 2
  }

  /** At most one thinking block, then at most one text block, then tools: the only shape from_openai makes. */
  ghost predicate Canonical(kinds: seq<Kind>) {
    forall a, b :: 0 <= a < b < |kinds| ==>
      KindRank(kinds[a]) < KindRank(kinds[b]) || kinds[a] == kinds[b] == Tool
  }

  function Kinds(blocks: seq<Live>): seq<Kind> {
    seq(|blocks|, k requires 0 <= k < |blocks| => blocks[k].kind)
  }

  lemma PlacedKinds(st: State, blocks: seq<Live>, p: Piece)
    requires ToolsPlaced(st, blocks)
    ensures Kinds(blocks) <= Kinds(Placed(st, blocks, p))
  {
  }

  /** A piece that comes after one that ranks above it opens a block out of place. */
  lemma OutOfPlace(ps: seq<Piece>, p: Piece)
    requires InOrder(ps) && Substantive(ps) && !InOrder(ps + [p])
    ensures !Canonical(Kinds(Reader(ps + [p]).blocks))
  {
    hide FlatMap, Fold, Run, Settled, Placed, Canonical;
    var i := Misplaced(ps, p);
    ReaderGrows(ps, p);
    LastSettled(ps, i);
    var st, blocks := Run(BEGUN, ps).st, Reader(ps).blocks;
    OpensBelow(st, blocks, p);
  }

  /** Some earlier piece ranks above the last one. */
  lemma Misplaced(ps: seq<Piece>, p: Piece) returns (i: nat)
    requires InOrder(ps) && !InOrder(ps + [p])
    ensures i < |ps| && Rank(p).Some? && Rank(ps[i]).Some? && Rank(ps[i]).value > Rank(p).value
  {
    var k, j :| 0 <= k < j < |ps + [p]| && Rank((ps + [p])[k]).Some? && Rank((ps + [p])[j]).Some?
                && Rank((ps + [p])[k]).value > Rank((ps + [p])[j]).value;
    assert forall k :: 0 <= k < |ps| ==> (ps + [p])[k] == ps[k];
    i := k;
  }

  /** While in order, the open block is the last and ranks no lower than any piece so far. */
  lemma LastSettled(ps: seq<Piece>, i: nat)
    requires InOrder(ps) && Substantive(ps) && i < |ps| && Rank(ps[i]).Some?
    ensures var st, blocks := Run(BEGUN, ps).st, Reader(ps).blocks;
            && st.kind.Some? && blocks != [] && blocks[|blocks| - 1].kind == st.kind.value
            && KindRank(st.kind.value) >= Rank(ps[i]).value
  {
    hide FlatMap, Fold, Run, InOrder;
    OrderedSettled(ps);
    if ps[i].Call? {
      FlatMapSomething(ps, CallOf, i);
      var ds := FlatMap(ps, CallOf);
      assert AddedCalls(ds) == AddCall(AddedCalls(ds[..|ds| - 1]), ds[|ds| - 1]);
    } else if ps[i].Say? {
      FlatMapSomething(ps, SaidOf, i);
    } else {
      FlatMapSomething(ps, ThoughtOf, i);
    }
  }

  lemma OpensBelow(st: State, blocks: seq<Live>, p: Piece)
    requires ToolsPlaced(st, blocks) && blocks != [] && st.kind == Some(blocks[|blocks| - 1].kind)
    requires Rank(p).Some? && KindRank(st.kind.value) > Rank(p).value
    ensures !Canonical(Kinds(Placed(st, blocks, p)))
  {
    var kinds := Kinds(Placed(st, blocks, p));
    assert |kinds| == |blocks| + 1 && kinds[|blocks| - 1] == st.kind.value
        && KindRank(kinds[|blocks|]) == Rank(p).value;
  }

  lemma {:induction false} DisorderedNotCanonical(ps: seq<Piece>)
    requires Substantive(ps) && !InOrder(ps)
    ensures !Canonical(Kinds(Reader(ps).blocks))
  {
    hide Fold, Run, InOrder;
    if ps == [] {
      NothingInOrder();
    } else {
      var init, p := ps[..|ps| - 1], ps[|ps| - 1];
      assert ps == init + [p];
      if InOrder(init) {
        OutOfPlace(init, p);
      } else {
        DisorderedNotCanonical(init);
        ReaderGrows(init, p);
        PlacedKinds(Run(BEGUN, init).st, Reader(init).blocks, p);
      }
    }
  }

  lemma NothingInOrder()
    ensures InOrder([])
  {
  }

  // ------------------------------------------------------- the theorem --

  lemma ToolBlocksAgree<J>(parse: string -> Option<J>, calls: seq<IndexedCall>)
    ensures BlocksOf(parse, ToolLive(calls)) == ToolBlocks(parse, CallsOnly(calls))
  {
  }

  lemma ProseBlocksAgree<J>(parse: string -> Option<J>, thinking: string, text: string)
    ensures BlocksOf(parse, ProseLive(thinking, text)) == ProseBlocks(thinking, text)
  {
  }

  lemma BlocksOfAppend<J>(parse: string -> Option<J>, a: seq<Live>, b: seq<Live>)
    ensures BlocksOf(parse, a + b) == BlocksOf(parse, a) + BlocksOf(parse, b)
  {
  }

  lemma CanonicalAgree<J>(parse: string -> Option<J>, thinking: string, text: string, calls: seq<IndexedCall>)
    ensures BlocksOf(parse, ProseLive(thinking, text) + ToolLive(calls))
         == ProseBlocks(thinking, text) + ToolBlocks(parse, CallsOnly(calls))
  {
    BlocksOfAppend(parse, ProseLive(thinking, text), ToolLive(calls));
    ToolBlocksAgree(parse, calls);
    ProseBlocksAgree(parse, thinking, text);
  }

  /** A client whose blocks equal canonical ones has canonical kinds. */
  lemma EqualBlocksCanonical<J>(parse: string -> Option<J>, blocks: seq<Live>, thinking: string, text: string,
                                calls: seq<IndexedCall>)
    requires BlocksOf(parse, blocks) == ProseBlocks(thinking, text) + ToolBlocks(parse, CallsOnly(calls))
    ensures Canonical(Kinds(blocks))
  {
    CanonicalAgree(parse, thinking, text, calls);
    var canon := ProseLive(thinking, text) + ToolLive(calls);
    assert |blocks| == |canon|;
    forall k | 0 <= k < |blocks|
      ensures blocks[k].kind == canon[k].kind
    {
      assert BlocksOf(parse, blocks)[k] == BlocksOf(parse, canon)[k];
    }
  }

  /** A prose difference shows in the first block. */
  lemma ThinkingShows<J>(a: string, b: string, text: string, tools: seq<Block<J>>)
    requires a != b
    ensures ProseBlocks(a, text) + tools != ProseBlocks(b, text) + tools
  {
    var x, y := ProseBlocks(a, text) + tools, ProseBlocks(b, text) + tools;
    if a != "" && b != "" {
      assert x[0] != y[0];
    } else {
      assert |x| != |y|;
    }
  }

  function FinishOf(p: Piece): seq<(string, Matched)> {
    if p.Finish? then [(p.finish, p.matched)] else []
  }

  function CountOf(p: Piece): seq<Usage> {
    if p.Count? then [p.usage] else []
  }

  /** The state's stop and usage fields are the last ones sent. */
  lemma {:induction false} RunRecords(ps: seq<Piece>)
    ensures var st := Run(BEGUN, ps).st;
            (st.finish, st.matched) == LastFinish(FlatMap(ps, FinishOf))
            && st.usage == (if LastUsage(FlatMap(ps, CountOf)).Some? then LastUsage(FlatMap(ps, CountOf)).value
                            else Usage(None, None))
  {
    if ps == [] {
      NothingRecorded();
    } else {
      var init, p := ps[..|ps| - 1], ps[|ps| - 1];
      assert ps == init + [p];
      RunRecords(init);
      RunSnoc(BEGUN, init, p);
      FlatMapSnoc(init, p, FinishOf);
      FlatMapSnoc(init, p, CountOf);
      StepRecords(Run(BEGUN, init).st, p);
      hide Run, Step, FlatMap;
      LastOnes(FlatMap(init, FinishOf), FlatMap(init, CountOf), p);
    }
  }

  lemma NothingRecorded()
    ensures var st := Run(BEGUN, []).st;
            (st.finish, st.matched) == LastFinish(FlatMap([], FinishOf)) && LastUsage(FlatMap([], CountOf)) == None
            && st.usage == Usage(None, None)
  {
  }

  lemma StepRecords(st: State, p: Piece)
    ensures var next := Step(st, p).st;
            && (next.finish, next.matched) == (if p.Finish? then (p.finish, p.matched) else (st.finish, st.matched))
            && next.usage == (if p.Count? then p.usage else st.usage)
  {
  }

  lemma LastOnes(finishes: seq<(string, Matched)>, usages: seq<Usage>, p: Piece)
    ensures LastFinish(finishes + FinishOf(p)) == if p.Finish? then (p.finish, p.matched) else LastFinish(finishes)
    ensures LastUsage(usages + CountOf(p)) == if p.Count? then Some(p.usage) else LastUsage(usages)
  {
    assert finishes + [] == finishes && usages + [] == usages;
  }

  lemma FinishesArePieces(chunks: seq<Chunk>)
    ensures FlatMap(Pieces(chunks), FinishOf) == FlatMap(Choices(chunks), FinishSent)
  {
    forall c
      ensures FlatMap(ChoicePieces(c), FinishOf) == FinishSent(c)
    {
      ChoiceParts(c, FinishOf);
      FlatMapNothing(CallPieces(c.delta.toolCalls), FinishOf);
    }
    ProjectPieces(chunks, FinishOf, FinishSent);
  }

  lemma {:induction false} ChoicesCountNothing(cs: seq<Choice>)
    ensures FlatMap(FlatMap(cs, ChoicePieces), CountOf) == []
  {
    if cs != [] {
      var c := cs[|cs| - 1];
      ChoicesCountNothing(cs[..|cs| - 1]);
      FlatMapAppend(FlatMap(cs[..|cs| - 1], ChoicePieces), ChoicePieces(c), CountOf);
      ChoiceParts(c, CountOf);
      FlatMapNothing(CallPieces(c.delta.toolCalls), CountOf);
    }
  }

  lemma {:induction false} CountsArePieces(chunks: seq<Chunk>)
    ensures FlatMap(Pieces(chunks), CountOf) == FlatMap(chunks, UsageSent)
  {
    hide ChoicePieces;
    if chunks != [] {
      var init, chunk := chunks[..|chunks| - 1], chunks[|chunks| - 1];
      CountsArePieces(init);
      FlatMapAppend(Pieces(init), ChunkPieces(chunk), CountOf);
      var counted := if chunk.usage.Some? then [Count(chunk.usage.value)] else [];
      FlatMapAppend(counted, FlatMap(chunk.choices, ChoicePieces), CountOf);
      ChoicesCountNothing(chunk.choices);
    }
  }

  lemma {:induction false} AddedCallsSome(ds: seq<ToolDelta>)
    ensures AddedCalls(ds) == [] <==> ds == []
  {
  }

  /** Stop reason and token counts agree for every stream; only the blocks can differ. */
  lemma StopAndUsageAgree<J>(parse: string -> Option<J>, stops: seq<string>, chunks: seq<Chunk>)
    ensures var streamed := Assembled(parse, Fold(FRESH, Transcript(stops, chunks)));
            var whole := MessageOf(parse, AddedUp(chunks), stops);
            && streamed.stop == whole.stop
            && streamed.inputTokens == whole.inputTokens && streamed.outputTokens == whole.outputTokens
  {
    hide FlatMap, Fold, Run, Transcript, ToolBlocks;
    var ps := Pieces(chunks);
    TranscriptRead(stops, chunks);
    RunRecords(ps);
    RunTracks(ps);
    FinishesArePieces(chunks);
    CountsArePieces(chunks);
    CallsArePieces(chunks);
    ToolsSeenSome(FlatMap(ps, CallOf));
    AddedCallsSome(FlatMap(ps, CallOf));
  }

  /** The stop reason and the counts a client is told at the end of any stream: those of the last finish and the last
      usage sent. */
  lemma StreamStops(stops: seq<string>, chunks: seq<Chunk>)
    ensures var c, finishes := Fold(FRESH, Transcript(stops, chunks)), FlatMap(Choices(chunks), FinishSent);
            var usages := FlatMap(chunks, UsageSent);
            var (finish, matched) := if finishes == [] then ("", Unmatched) else finishes[|finishes| - 1];
            && StopFits(c.stop, finish, matched, stops, FlatMap(Choices(chunks), CallsSent) != [])
            && CountFits(if usages == [] then None else Some(usages[|usages| - 1]), c.inputTokens, c.outputTokens)
  {
    var parse := (s: string) => Some(s);
    StopAndUsageAgree(parse, stops, chunks);
    hide FlatMap, Fold, Transcript, MessageOf, StopFits, CountFits;
    MessageStops(parse, AddedUp(chunks), stops);
    MessageReads(parse, AddedUp(chunks), stops);
    AddedCallsSome(FlatMap(Choices(chunks), CallsSent));
  }

  lemma ToolsSeenSome(ds: seq<ToolDelta>)
    ensures (set d | d in ds :: ToolIndex(d)) != {} <==> ds != []
  {
    var seen := set d | d in ds :: ToolIndex(d);
    if ds != [] {
      assert ds[0] in ds && ToolIndex(ds[0]) in seen;
    }
  }

  /** The message a client assembles from the stream is from_openai of the reply the chunks add up to exactly
      when reasoning precedes content precedes tool calls (a tool's arguments may come in any order) and the
      engine uses one reasoning field. */
  lemma StreamAgrees<J>(parse: string -> Option<J>, stops: seq<string>, chunks: seq<Chunk>)
    ensures Assembled(parse, Fold(FRESH, Transcript(stops, chunks))) == MessageOf(parse, AddedUp(chunks), stops)
       <==> InOrder(Pieces(chunks)) && OneReasoningField(Choices(chunks))
  {
    hide FlatMap, Fold, Run, Transcript, ToolBlocks, ProseBlocks, InOrder, BlocksOf, AddedCalls, OneReasoningField;
    var ps, cs := Pieces(chunks), Choices(chunks);
    var blocks := Reader(ps).blocks;
    var reasoning := ReasoningOf(FlatMap(cs, ReasoningContentSent), FlatMap(cs, OtherReasoningSent));
    var said, calls := FlatMap(cs, ContentSent), AddedCalls(FlatMap(cs, CallsSent));
    StopAndUsageAgree(parse, stops, chunks);
    TranscriptRead(stops, chunks);
    ChunksSubstantive(chunks);
    ReasoningAgrees(cs);
    assert MessageOf(parse, AddedUp(chunks), stops).content
        == ProseBlocks(reasoning, said) + ToolBlocks(parse, CallsOnly(calls));
    if InOrder(ps) {
      OrderedSettled(ps);
      ReasoningIsPieces(chunks);
      ContentIsPieces(chunks);
      CallsArePieces(chunks);
      CanonicalAgree(parse, FlatMap(cs, ReasoningSent), said, calls);
      if FlatMap(cs, ReasoningSent) != reasoning {
        ThinkingShows(FlatMap(cs, ReasoningSent), reasoning, said, ToolBlocks(parse, CallsOnly(calls)));
      }
    } else {
      DisorderedNotCanonical(ps);
      if BlocksOf(parse, blocks) == ProseBlocks(reasoning, said) + ToolBlocks(parse, CallsOnly(calls)) {
        EqualBlocksCanonical(parse, blocks, reasoning, said, calls);
      }
    }
  }
}
