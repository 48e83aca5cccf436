/** gate/rackgate.py's StreamTranslator: chat completions chunks in, Messages
    stream events out. The class nests loops over choices and tool calls; it is
    proved to be one fold of Step over the pieces the chunks hold. */
module Translator {
  import opened Prelude
  import opened Messages

  /** What a chunk can hold, in the order the translator acts on it. */
  datatype Piece =
    | Count(usage: Usage)
    | Think(text: string)
    | Say(text: string)
    | Call(delta: ToolDelta)
    | Finish(finish: string, matched: Matched)

  /** tools maps the engine's tool index to the block it opened. */
  datatype State = State(index: int, kind: Option<Kind>, tools: map<int, int>, finish: string, matched: Matched,
                         usage: Usage, started: bool, usedTools: bool)

  const NEW := State(-1, None, map[], "", Unmatched, Usage(None, None), false, false)

  datatype Emit = Emit(st: State, out: seq<Event>)

  function ToolIndex(d: ToolDelta): int {
    if d.index.Some? then d.index.value else 0
  }

  // ------------------------------------------------------------- pieces --

  function CallPieces(calls: seq<ToolDelta>): seq<Piece> {
    seq(|calls|, k requires 0 <= k < |calls| => Call(calls[k]))
  }

  function DeltaPieces(d: Delta): seq<Piece> {
    var reasoning := ReasoningOf(d.reasoningContent, d.reasoning);
    (if reasoning != "" then [Think(reasoning)] else [])
    + (if d.content != "" then [Say(d.content)] else [])
    + CallPieces(d.toolCalls)
  }

  function ChoicePieces(c: Choice): seq<Piece> {
    DeltaPieces(c.delta) + (if c.finish != "" then [Finish(c.finish, c.matched)] else [])
  }

  function ChunkPieces(chunk: Chunk): seq<Piece> {
    (if chunk.usage.Some? then [Count(chunk.usage.value)] else []) + FlatMap(chunk.choices, ChoicePieces)
  }

  function Pieces(chunks: seq<Chunk>): seq<Piece> {
    FlatMap(chunks, ChunkPieces)
  }

  // --------------------------------------------------------------- steps --

  function Closed(st: State): Emit {
    if st.kind == None then Emit(st, [])
    else Emit(st.(kind := None),
              (if st.kind == Some(Thinking) then [SignatureDelta(st.index)] else []) + [BlockStop(st.index)])
  }

  function Opened(st: State, kind: Kind, id: ToolId, name: string): Emit {
    var closed := Closed(st);
    Emit(closed.st.(index := st.index + 1, kind := Some(kind)),
         closed.out + [BlockStart(st.index + 1, kind, id, name)])
  }

  /** The block of this kind that is open, opened if it is not. */
  function Ready(st: State, kind: Kind): Emit {
    if st.kind == Some(kind) then Emit(st, []) else Opened(st, kind, Minted, "")
  }

  /** The block of a tool call, opened at the index's first delta; a later delta goes there whatever is open. */
  function ToolReady(st: State, d: ToolDelta): Emit {
    if ToolIndex(d) in st.tools then Emit(st, [])
    else
      var newly := Opened(st, Tool, IdOf(d.id), d.name);
      Emit(newly.st.(usedTools := true, tools := st.tools[ToolIndex(d) := newly.st.index]), newly.out)
  }

  function Step(st: State, p: Piece): Emit {
    match p
    case Count(usage) => Emit(st.(usage := usage), [])
    case Think(text) =>
      var ready := Ready(st, Thinking);
      Emit(ready.st, ready.out + [ThinkingDelta(ready.st.index, text)])
    case Say(text) =>
      var ready := Ready(st, Text);
      Emit(ready.st, ready.out + [TextDelta(ready.st.index, text)])
    case Call(d) =>
      var ready := ToolReady(st, d);
      Emit(ready.st,
           ready.out + (if d.arguments != "" then [JsonDelta(ready.st.tools[ToolIndex(d)], d.arguments)] else []))
    case Finish(finish, matched) => Emit(st.(finish := finish, matched := matched), [])
  }

  function Run(st: State, ps: seq<Piece>): Emit {
    if ps == [] then Emit(st, [])
    else
      var before := Run(st, ps[..|ps| - 1]);
      var last := Step(before.st, ps[|ps| - 1]);
      Emit(last.st, before.out + last.out)
  }

  function Started(st: State): Emit {
    if st.started then Emit(st, []) else Emit(st.(started := true), [MessageStart])
  }

  function Fed(st: State, chunk: Chunk): Emit {
    var started := Started(st);
    var ran := Run(started.st, ChunkPieces(chunk));
    Emit(ran.st, started.out + ran.out)
  }

  function Ended(st: State, stops: seq<string>): Emit {
    var started := Started(st);
    var closed := Closed(started.st);
    Emit(closed.st,
         started.out + closed.out
         + [MessageDelta(WithTools(StopReason(st.finish, st.matched, stops), st.usedTools),
                         OrZero(st.usage.promptTokens), OrZero(st.usage.completionTokens)),
            MessageStop])
  }

  function FedAll(st: State, chunks: seq<Chunk>): Emit {
    if chunks == [] then Emit(st, [])
    else
      var before := FedAll(st, chunks[..|chunks| - 1]);
      var last := Fed(before.st, chunks[|chunks| - 1]);
      Emit(last.st, before.out + last.out)
  }

  /** Every event of a whole stream: feed for each chunk, then end. */
  function Transcript(stops: seq<string>, chunks: seq<Chunk>): seq<Event> {
    var fed := FedAll(NEW, chunks);
    fed.out + Ended(fed.st, stops).out
  }

  lemma RunNothing(st: State)
    ensures Run(st, []) == Emit(st, [])
  {
  }

  lemma RunSnoc(st: State, ps: seq<Piece>, p: Piece)
    ensures Run(st, ps + [p]).st == Step(Run(st, ps).st, p).st
    ensures Run(st, ps + [p]).out == Run(st, ps).out + Step(Run(st, ps).st, p).out
  {
    assert (ps + [p])[..|ps|] == ps;
  }

  lemma {:induction false} RunAppend(st: State, a: seq<Piece>, b: seq<Piece>)
    ensures Run(st, a + b).st == Run(Run(st, a).st, b).st
    ensures Run(st, a + b).out == Run(st, a).out + Run(Run(st, a).st, b).out
  {
    hide Step;
    if b == [] {
      assert a + b == a;
    } else {
      var p := b[|b| - 1];
      assert a + b == (a + b[..|b| - 1]) + [p];
      RunAppend(st, a, b[..|b| - 1]);
      RunSnoc(st, a + b[..|b| - 1], p);
    }
  }

  /** A tool delta that names no index goes where those of index 0 go. */
  lemma UnindexedIsFirst(st: State, d: ToolDelta)
    requires d.index == None
    ensures Step(st, Call(d)) == Step(st, Call(d.(index := Some(0))))
  {
  }

  /** What one delta holds is acted on in this order: reasoning, content, tool calls. */
  lemma DeltaOrder(d: Delta)
    ensures var ps := DeltaPieces(d);
            && (forall i, j :: 0 <= i < j < |ps| ==> !(ps[j].Think? || (ps[j].Say? && ps[i].Call?)))
            && (forall k :: 0 <= k < |d.toolCalls| ==>
                  |ps| >= |d.toolCalls| && ps[|ps| - |d.toolCalls| + k] == Call(d.toolCalls[k]))
  {
  }

  lemma PiecesNext(counted: seq<Piece>, choices: seq<Choice>, k: nat)
    requires k < |choices|
    ensures counted + FlatMap(choices[..k], ChoicePieces) + ChoicePieces(choices[k])
         == counted + FlatMap(choices[..k + 1], ChoicePieces)
  {
    hide FlatMap, ChoicePieces;
    assert choices[..k + 1] == choices[..k] + [choices[k]];
    FlatMapSnoc(choices[..k], choices[k], ChoicePieces);
  }

  lemma OutNext(a: seq<Event>, b: seq<Event>, c: seq<Event>)
    ensures a + b + c == a + (b + c)
  {
  }

  /** The translator object: feed and end update its fields in place. */
  class StreamTranslator {
    const stops: seq<string>
    var index: int
    var kind: Option<Kind>
    var tools: map<int, int>
    var finish: string
    var matched: Matched
    var usage: Usage
    var started: bool
    var usedTools: bool

    ghost function View(): State
      reads this
    {
      State(index, kind, tools, finish, matched, usage, started, usedTools)
    }

    constructor (stops: seq<string>)
      ensures this.stops == stops
      ensures View() == NEW
    {
      this.stops := stops;
      index, kind, tools := -1, None, map[];
      finish, matched, usage := "", Unmatched, Usage(None, None);
      started, usedTools := false, false;
    }

    method Start() returns (out: seq<Event>)
      modifies this
      ensures View() == old(View()).(started := true)
      ensures out == [MessageStart]
    {
      started := true;
      out := [MessageStart];
    }

    method Close() returns (out: seq<Event>)
      modifies this
      ensures Emit(View(), out) == Closed(old(View()))
    {
      out := [];
      if kind == None {
        return;
      }
      if kind == Some(Thinking) {
        out := out + [SignatureDelta(index)];
      }
      out := out + [BlockStop(index)];
      kind := None;
    }

    method Open(k: Kind, id: ToolId, name: string) returns (out: seq<Event>)
      modifies this
      ensures Emit(View(), out) == Opened(old(View()), k, id, name)
    {
      out := Close();
      index := index + 1;
      kind := Some(k);
      out := out + [BlockStart(index, k, id, name)];
    }

    method FeedUsage(u: Usage)
      modifies this
      ensures Emit(View(), []) == Step(old(View()), Count(u))
    {
      usage := u;
    }

    method FeedReasoning(text: string) returns (out: seq<Event>)
      modifies this
      ensures Emit(View(), out) == Step(old(View()), Think(text))
    {
      out := [];
      if kind != Some(Thinking) {
        out := Open(Thinking, Minted, "");
      }
      out := out + [ThinkingDelta(index, text)];
    }

    method FeedContent(text: string) returns (out: seq<Event>)
      modifies this
      ensures Emit(View(), out) == Step(old(View()), Say(text))
    {
      out := [];
      if kind != Some(Text) {
        out := Open(Text, Minted, "");
      }
      out := out + [TextDelta(index, text)];
    }

    method FeedFinish(ch: Choice)
      modifies this
      ensures Emit(View(), []) == Step(old(View()), Finish(ch.finish, ch.matched))
    {
      finish, matched := ch.finish, ch.matched;
    }

    method FeedCall(tc: ToolDelta) returns (out: seq<Event>)
      modifies this
      ensures Emit(View(), out) == Step(old(View()), Call(tc))
    {
      out := [];
      var i := ToolIndex(tc);
      if i !in tools {
        usedTools := true;
        out := Open(Tool, IdOf(tc.id), tc.name);
        tools := tools[i := index];
      }
      if tc.arguments != "" {
        out := out + [JsonDelta(tools[i], tc.arguments)];
      }
    }

    method FeedChoice(ch: Choice) returns (out: seq<Event>)
      modifies this
      ensures Emit(View(), out) == Run(old(View()), ChoicePieces(ch))
    {
      hide Run, Step;
      ghost var was := View();
      RunNothing(was);
      ghost var done: seq<Piece> := [];
      out := [];
      var r := ReasoningOf(ch.delta.reasoningContent, ch.delta.reasoning);
      if r != "" {
        RunSnoc(was, done, Think(r));
        done := done + [Think(r)];
        out := FeedReasoning(r);
      }
      if ch.delta.content != "" {
        RunSnoc(was, done, Say(ch.delta.content));
        done := done + [Say(ch.delta.content)];
        var said := FeedContent(ch.delta.content);
        out := out + said;
      }
      ghost var prose := done;
      for k := 0 to |ch.delta.toolCalls|
        invariant done == prose + CallPieces(ch.delta.toolCalls)[..k]
        invariant Emit(View(), out) == Run(was, done)
      {
        RunSnoc(was, done, Call(ch.delta.toolCalls[k]));
        done := done + [Call(ch.delta.toolCalls[k])];
        var fed := FeedCall(ch.delta.toolCalls[k]);
        out := out + fed;
      }
      assert done == DeltaPieces(ch.delta);
      if ch.finish != "" {
        RunSnoc(was, done, Finish(ch.finish, ch.matched));
        done := done + [Finish(ch.finish, ch.matched)];
        FeedFinish(ch);
      }
      assert done == ChoicePieces(ch);
    }

    method Feed(chunk: Chunk) returns (out: seq<Event>)
      modifies this
      ensures Emit(View(), out) == Fed(old(View()), chunk)
    {
      hide Run, Step, ChoicePieces;
      out := [];
      if !started {
        out := Start();
      }
      ghost var was, start := View(), out;
      RunNothing(was);
      ghost var done: seq<Piece> := [];
      if chunk.usage.Some? {
        RunSnoc(was, done, Count(chunk.usage.value));
        done := done + [Count(chunk.usage.value)];
        FeedUsage(chunk.usage.value);
      }
      ghost var counted := done;
      for k := 0 to |chunk.choices|
        invariant done == counted + FlatMap(chunk.choices[..k], ChoicePieces)
        invariant View() == Run(was, done).st
        invariant out == start + Run(was, done).out
      {
        ghost var more := ChoicePieces(chunk.choices[k]);
        PiecesNext(counted, chunk.choices, k);
        RunAppend(was, done, more);
        var fed := FeedChoice(chunk.choices[k]);
        OutNext(start, Run(was, done).out, fed);
        done := done + more;
        out := out + fed;
      }
      assert chunk.choices[..|chunk.choices|] == chunk.choices;
      assert done == ChunkPieces(chunk);
    }

    method End() returns (out: seq<Event>)
      modifies this
      ensures Emit(View(), out) == Ended(old(View()), stops)
    {
      out := [];
      if !started {
        out := Start();
      }
      var closed := Close();
      out := out + closed;
      out := out + [MessageDelta(WithTools(StopReason(finish, matched, stops), usedTools),
                                 OrZero(usage.promptTokens), OrZero(usage.completionTokens))];
      out := out + [MessageStop];
    }
  }

  /** A whole stream, as relay_messages drives the object. */
  method Translate(stops: seq<string>, chunks: seq<Chunk>) returns (out: seq<Event>)
    ensures out == Transcript(stops, chunks)
  {
    var t := new StreamTranslator(stops);
    out := [];
    for k := 0 to |chunks|
      invariant fresh(t) && t.stops == stops
      invariant Emit(t.View(), out) == FedAll(NEW, chunks[..k])
    {
      assert chunks[..k + 1][..k] == chunks[..k];
      var fed := t.Feed(chunks[k]);
      out := out + fed;
    }
    assert chunks[..|chunks|] == chunks;
    var ended := t.End();
    out := out + ended;
  }
}
