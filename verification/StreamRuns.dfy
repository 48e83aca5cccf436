/** What holds of every stream the translator sends, whatever the chunks: the
    grammar, where a delta may land, and that no content is lost or invented. */
module StreamRuns {
  import opened Prelude
  import opened Messages
  import opened Translator
  import opened StreamClient

  // -------------------------------------------------- client in lockstep --

  /** The translator and a client that read all its events so far. */
  ghost predicate InStep(st: State, c: Client) {
    && st.started
    && c.phase == Receiving
    && st.index == |c.blocks| - 1
    && (c.open <==> st.kind.Some?)
    && (st.kind.Some? ==> c.blocks != [] && c.blocks[st.index].kind == st.kind.value)
    && (forall i :: i in st.tools ==> 0 <= st.tools[i] < |c.blocks| && c.blocks[st.tools[i]].kind == Tool)
  }

  /** The client's blocks with one of this kind last. */
  function WithBlock(blocks: seq<Live>, isOpen: bool, kind: Kind, id: ToolId, name: string): seq<Live> {
    if isOpen then blocks else blocks + [Live(kind, id, name, "")]
  }

  ghost predicate ToolsPlaced(st: State, blocks: seq<Live>) {
    && st.index == |blocks| - 1
    && (st.kind.Some? ==> blocks != [])
    && (forall i :: i in st.tools ==> 0 <= st.tools[i] < |blocks|)
  }

  /** The client's blocks after the translator takes one piece. */
  ghost function Placed(st: State, blocks: seq<Live>, p: Piece): seq<Live>
    requires ToolsPlaced(st, blocks)
  {
    match p
    case Think(text) =>
      var bs := WithBlock(blocks, st.kind == Some(Thinking), Thinking, Minted, "");
      Append(bs, |bs| - 1, text)
    case Say(text) =>
      var bs := WithBlock(blocks, st.kind == Some(Text), Text, Minted, "");
      Append(bs, |bs| - 1, text)
    case Call(d) =>
      var known := ToolIndex(d) in st.tools;
      var bs := WithBlock(blocks, known, Tool, IdOf(d.id), d.name);
      Append(bs, if known then st.tools[ToolIndex(d)] else |blocks|, d.arguments)
    case _ => blocks
  }

  lemma AppendNothing(blocks: seq<Live>, at: int)
    requires 0 <= at < |blocks|
    ensures Append(blocks, at, "") == blocks
  {
    assert blocks[at].text + "" == blocks[at].text;
  }

  lemma FoldOne(c: Client, e: Event)
    ensures Fold(c, [e]) == Receive(c, e)
  {
    FoldSnoc(c, [], e);
    assert [] + [e] == [e];
  }

  lemma CloseInStep(st: State, c: Client)
    requires InStep(st, c)
    ensures Fold(c, Closed(st).out) == c.(open := false)
  {
    if st.kind == Some(Thinking) {
      assert Closed(st).out == [SignatureDelta(st.index)] + [BlockStop(st.index)];
      FoldOne(c, SignatureDelta(st.index));
      AppendNothing(c.blocks, st.index);
      FoldSnoc(c, [SignatureDelta(st.index)], BlockStop(st.index));
    } else if st.kind.Some? {
      FoldOne(c, BlockStop(st.index));
    }
  }

  lemma OpenInStep(st: State, c: Client, kind: Kind, id: ToolId, name: string)
    requires InStep(st, c)
    ensures Fold(c, Opened(st, kind, id, name).out)
         == c.(blocks := c.blocks + [Live(kind, id, name, "")], open := true)
    ensures InStep(Opened(st, kind, id, name).st, Fold(c, Opened(st, kind, id, name).out))
  {
    hide Fold;
    CloseInStep(st, c);
    FoldSnoc(c, Closed(st).out, BlockStart(st.index + 1, kind, id, name));
  }

  /** The block is ready for a delta of its kind, the last one. */
  lemma ReadyInStep(st: State, c: Client, kind: Kind)
    requires InStep(st, c)
    ensures Fold(c, Ready(st, kind).out)
         == c.(blocks := WithBlock(c.blocks, st.kind == Some(kind), kind, Minted, ""), open := true)
    ensures InStep(Ready(st, kind).st, Fold(c, Ready(st, kind).out)) && Ready(st, kind).st.kind == Some(kind)
  {
    if st.kind != Some(kind) {
      OpenInStep(st, c, kind, Minted, "");
    }
  }

  lemma StepInStep(st: State, c: Client, p: Piece)
    requires InStep(st, c)
    ensures ToolsPlaced(st, c.blocks)
    ensures Fold(c, Step(st, p).out) == c.(blocks := Placed(st, c.blocks, p), open := Step(st, p).st.kind.Some?)
    ensures InStep(Step(st, p).st, Fold(c, Step(st, p).out))
  {
    FoldNothing(c);
    hide Fold, Opened, Closed, Append;
    match p {
      case Count(_) =>
      case Finish(_, _) =>
      case Think(text) => ProseInStep(st, c, Thinking, ThinkingDelta(Ready(st, Thinking).st.index, text));
      case Say(text) => ProseInStep(st, c, Text, TextDelta(Ready(st, Text).st.index, text));
      case Call(d) => CallInStep(st, c, d);
    }
  }

  lemma ProseInStep(st: State, c: Client, kind: Kind, delta: Event)
    requires InStep(st, c)
    requires delta.IsDelta() && delta.DeltaKind() == kind && delta.index == Ready(st, kind).st.index
    ensures var bs := WithBlock(c.blocks, st.kind == Some(kind), kind, Minted, "");
            bs != []
            && Fold(c, Ready(st, kind).out + [delta])
               == c.(blocks := Append(bs, |bs| - 1, delta.Payload()), open := true)
    ensures InStep(Ready(st, kind).st, Fold(c, Ready(st, kind).out + [delta]))
  {
    hide Fold;
    ReadyInStep(st, c, kind);
    FoldSnoc(c, Ready(st, kind).out, delta);
  }

  lemma CallInStep(st: State, c: Client, d: ToolDelta)
    requires InStep(st, c)
    ensures ToolsPlaced(st, c.blocks)
    ensures Fold(c, Step(st, Call(d)).out)
         == c.(blocks := Placed(st, c.blocks, Call(d)), open := Step(st, Call(d)).st.kind.Some?)
    ensures InStep(Step(st, Call(d)).st, Fold(c, Step(st, Call(d)).out))
  {
    hide Fold, ToolReady, Append;
    var ready := ToolReady(st, d);
    ToolReadyInStep(st, c, d);
    var open := Fold(c, ready.out);
    var at := ready.st.tools[ToolIndex(d)];
    if d.arguments == "" {
      assert ready.out + [] == ready.out;
      AppendNothing(open.blocks, at);
    } else {
      FoldSnoc(c, ready.out, JsonDelta(at, d.arguments));
      AppendInStep(ready.st, open, at, d.arguments);
    }
  }

  lemma AppendInStep(st: State, c: Client, at: int, text: string)
    requires InStep(st, c) && 0 <= at < |c.blocks|
    ensures InStep(st, c.(blocks := Append(c.blocks, at, text)))
  {
  }

  /** A tool call's block is there, and the map names it. */
  lemma ToolReadyInStep(st: State, c: Client, d: ToolDelta)
    requires InStep(st, c)
    ensures var ready, known := ToolReady(st, d), ToolIndex(d) in st.tools;
            && Fold(c, ready.out) == c.(blocks := WithBlock(c.blocks, known, Tool, IdOf(d.id), d.name),
                                        open := ready.st.kind.Some?)
            && InStep(ready.st, Fold(c, ready.out)) && ToolIndex(d) in ready.st.tools
            && ready.st.tools[ToolIndex(d)] == (if known then st.tools[ToolIndex(d)] else |c.blocks|)
  {
    hide Fold;
    if ToolIndex(d) !in st.tools {
      OpenInStep(st, c, Tool, IdOf(d.id), d.name);
    } else {
      FoldNothing(c);
    }
  }

  lemma FoldNothing(c: Client)
    ensures Fold(c, []) == c
  {
  }

  const BEGUN := NEW.(started := true)
  const OPENED := FRESH.(phase := Receiving)

  /** The client after message_start and the events of some pieces. */
  function Reader(ps: seq<Piece>): Client {
    Fold(OPENED, Run(BEGUN, ps).out)
  }

  lemma ReaderSnoc(ps: seq<Piece>, p: Piece)
    ensures Reader(ps + [p]) == Fold(Reader(ps), Step(Run(BEGUN, ps).st, p).out)
  {
    hide Step;
    RunSnoc(BEGUN, ps, p);
    FoldAppend(OPENED, Run(BEGUN, ps).out, Step(Run(BEGUN, ps).st, p).out);
  }

  lemma {:induction false} RunInStep(ps: seq<Piece>)
    ensures InStep(Run(BEGUN, ps).st, Reader(ps))
    ensures Reader(ps) == OPENED.(blocks := Reader(ps).blocks, open := Reader(ps).open)
  {
    hide Step;
    if ps != [] {
      var init, p := ps[..|ps| - 1], ps[|ps| - 1];
      assert ps == init + [p];
      RunInStep(init);
      RunSnoc(BEGUN, init, p);
      ReaderSnoc(init, p);
      StepInStep(Run(BEGUN, init).st, Reader(init), p);
    }
  }

  /** The state and blocks after one more piece. */
  lemma ReaderGrows(ps: seq<Piece>, p: Piece)
    ensures ToolsPlaced(Run(BEGUN, ps).st, Reader(ps).blocks)
    ensures Run(BEGUN, ps + [p]).st == Step(Run(BEGUN, ps).st, p).st
    ensures Reader(ps + [p]).blocks == Placed(Run(BEGUN, ps).st, Reader(ps).blocks, p)
  {
    hide Step;
    RunInStep(ps);
    RunSnoc(BEGUN, ps, p);
    ReaderSnoc(ps, p);
    StepInStep(Run(BEGUN, ps).st, Reader(ps), p);
  }

  // ----------------------------------------------------- whole transcript --

  lemma {:induction false} FedAllIsRun(chunks: seq<Chunk>)
    requires chunks != []
    ensures FedAll(NEW, chunks).st == Run(BEGUN, Pieces(chunks)).st
    ensures FedAll(NEW, chunks).out == [MessageStart] + Run(BEGUN, Pieces(chunks)).out
  {
    hide Step, ChunkPieces;
    var init, chunk := chunks[..|chunks| - 1], chunks[|chunks| - 1];
    assert Pieces(chunks) == Pieces(init) + ChunkPieces(chunk);
    RunAppend(BEGUN, Pieces(init), ChunkPieces(chunk));
    if init == [] {
      assert Pieces(init) == [];
    } else {
      FedAllIsRun(init);
      RunInStep(Pieces(init));
    }
  }

  function StopOf(st: State, stops: seq<string>): Stop {
    WithTools(StopReason(st.finish, st.matched, stops), st.usedTools)
  }

  function Summary(st: State, stops: seq<string>): Event {
    MessageDelta(StopOf(st, stops), OrZero(st.usage.promptTokens), OrZero(st.usage.completionTokens))
  }

  lemma TranscriptIsRun(stops: seq<string>, chunks: seq<Chunk>)
    ensures var ran := Run(BEGUN, Pieces(chunks));
            Transcript(stops, chunks)
            == [MessageStart] + ran.out + Closed(ran.st).out + [Summary(ran.st, stops)] + [MessageStop]
  {
    hide Step;
    if chunks != [] {
      FedAllIsRun(chunks);
      RunInStep(Pieces(chunks));
    }
  }

  /** What a client has at the end of any stream: finished, with the blocks of
      the pieces, and the stop reason and usage the translator last recorded. */
  lemma TranscriptRead(stops: seq<string>, chunks: seq<Chunk>)
    ensures var st := Run(BEGUN, Pieces(chunks)).st;
            Fold(FRESH, Transcript(stops, chunks))
            == Client(Finished, Reader(Pieces(chunks)).blocks, false, StopOf(st, stops),
                      OrZero(st.usage.promptTokens), OrZero(st.usage.completionTokens))
  {
    hide Step, Fold, Run, Closed;
    var ps := Pieces(chunks);
    var ran := Run(BEGUN, ps);
    TranscriptIsRun(stops, chunks);
    RunInStep(ps);
    CloseInStep(ran.st, Reader(ps));
    var started := [MessageStart] + ran.out;
    FoldOne(FRESH, MessageStart);
    FoldAppend(FRESH, [MessageStart], ran.out);
    FoldAppend(FRESH, started, Closed(ran.st).out);
    FoldSnoc(FRESH, started + Closed(ran.st).out, Summary(ran.st, stops));
    FoldSnoc(FRESH, started + Closed(ran.st).out + [Summary(ran.st, stops)], MessageStop);
  }

  /** Every run, for any chunks, is well formed. */
  lemma TranscriptWellFormed(stops: seq<string>, chunks: seq<Chunk>)
    ensures WellFormed(Transcript(stops, chunks))
  {
    TranscriptRead(stops, chunks);
    FinishedMeansWellFormed(Transcript(stops, chunks));
  }

  // -------------------------------------------- deltas in the open block --

  /** Who the open block belongs to, read off the pieces alone: a tool call
      that was seen before opens nothing. */
  datatype Owner = Nobody | Reasoner | Speaker | Caller(index: int)

  function CallOf(p: Piece): seq<ToolDelta> {
    if p.Call? then [p.delta] else []
  }

  function ToolsSeen(ps: seq<Piece>): set<int> {
    set d | d in FlatMap(ps, CallOf) :: ToolIndex(d)
  }

  function OwnerOf(ps: seq<Piece>): Owner {
    if ps == [] then Nobody
    else
      var init, p := ps[..|ps| - 1], ps[|ps| - 1];
      match p
      case Think(_) => Reasoner
      case Say(_) => Speaker
      case Call(d) => if ToolIndex(d) in ToolsSeen(init) then OwnerOf(init) else Caller(ToolIndex(d))
      case _ => OwnerOf(init)
  }

  /** This piece brings arguments for a tool call that is no longer the open block. */
  ghost predicate Returns(ps: seq<Piece>, k: nat)
    requires k < |ps|
  {
    && ps[k].Call? && ps[k].delta.arguments != ""
    && ToolIndex(ps[k].delta) in ToolsSeen(ps[..k])
    && OwnerOf(ps[..k]) != Caller(ToolIndex(ps[k].delta))
  }

  ghost predicate OwnedBy(st: State, owner: Owner) {
    match owner
    case Nobody => st.kind == None
    case Reasoner => st.kind == Some(Thinking)
    case Speaker => st.kind == Some(Text)
    case Caller(i) => st.kind == Some(Tool) && i in st.tools && st.tools[i] == st.index
  }

  ghost predicate OneToOne(tools: map<int, int>) {
    forall i, j :: i in tools && j in tools && tools[i] == tools[j] ==> i == j
  }

  lemma ToolsSeenSnoc(ps: seq<Piece>, p: Piece)
    ensures ToolsSeen(ps + [p]) == ToolsSeen(ps) + (if p.Call? then {ToolIndex(p.delta)} else {})
  {
    FlatMapSnoc(ps, p, CallOf);
  }

  /** The tool map is one to one, names exactly the tools seen, and the open block is its owner's. */
  ghost predicate Tracks(st: State, ps: seq<Piece>) {
    && st.tools.Keys == ToolsSeen(ps)
    && OneToOne(st.tools)
    && OwnedBy(st, OwnerOf(ps))
    && (st.usedTools <==> ToolsSeen(ps) != {})
  }

  lemma CallTracks(st: State, c: Client, ps: seq<Piece>, p: Piece)
    requires InStep(st, c) && Tracks(st, ps) && p.Call?
    ensures Tracks(Step(st, p).st, ps + [p])
  {
    assert (ps + [p])[..|ps|] == ps;
    ToolsSeenSnoc(ps, p);
    hide ToolsSeen;
    var i := ToolIndex(p.delta);
    if i !in st.tools {
      assert Step(st, p).st.tools == st.tools[i := st.index + 1];
      NewTool(st.tools, i, st.index + 1);
    } else {
      assert ToolsSeen(ps) + {i} == ToolsSeen(ps);
    }
  }

  lemma StepTracks(st: State, c: Client, ps: seq<Piece>, p: Piece)
    requires InStep(st, c) && Tracks(st, ps)
    ensures Tracks(Step(st, p).st, ps + [p])
  {
    assert (ps + [p])[..|ps|] == ps;
    ToolsSeenSnoc(ps, p);
    hide ToolsSeen;
    if p.Call? {
      CallTracks(st, c, ps, p);
    } else {
      assert ToolsSeen(ps) + {} == ToolsSeen(ps);
    }
  }

  lemma NewTool(tools: map<int, int>, i: int, at: int)
    requires OneToOne(tools) && i !in tools && forall j :: j in tools ==> tools[j] < at
    ensures OneToOne(tools[i := at]) && tools[i := at].Keys == tools.Keys + {i}
  {
  }

  lemma {:induction false} RunTracks(ps: seq<Piece>)
    ensures Tracks(Run(BEGUN, ps).st, ps)
  {
    hide Step;
    if ps != [] {
      var init, p := ps[..|ps| - 1], ps[|ps| - 1];
      assert ps == init + [p];
      RunTracks(init);
      RunInStep(init);
      RunSnoc(BEGUN, init, p);
      StepTracks(Run(BEGUN, init).st, Reader(init), init, p);
    }
  }

  /** A strict client's view of some events, given the blocks started and stopped before them. */
  ghost predicate OpenOnlyFrom(starts: nat, stops: nat, es: seq<Event>) {
    forall k :: 0 <= k < |es| && es[k].IsDelta() ==>
      es[k].index == starts + Starts(es[..k]) - 1 && stops + Stops(es[..k]) < starts + Starts(es[..k])
  }

  lemma {:induction false} CountsAppend(a: seq<Event>, b: seq<Event>)
    ensures Starts(a + b) == Starts(a) + Starts(b)
    ensures Stops(a + b) == Stops(a) + Stops(b)
  {
    if b == [] {
      assert a + b == a;
    } else {
      assert (a + b)[..|a + b| - 1] == a + b[..|b| - 1];
      CountsAppend(a, b[..|b| - 1]);
    }
  }

  lemma OpenOnlyAppend(a: seq<Event>, b: seq<Event>)
    ensures OpenOnly(a + b) <==> OpenOnly(a) && OpenOnlyFrom(Starts(a), Stops(a), b)
  {
    var es := a + b;
    forall k | 0 <= k < |es|
      ensures k < |a| ==> es[..k] == a[..k] && es[k] == a[k]
      ensures k >= |a| ==> es[k] == b[k - |a|] && Starts(es[..k]) == Starts(a) + Starts(b[..k - |a|])
                           && Stops(es[..k]) == Stops(a) + Stops(b[..k - |a|])
    {
      if k >= |a| {
        assert es[..k] == a + b[..k - |a|];
        CountsAppend(a, b[..k - |a|]);
      } else {
        assert es[..k] == a[..k];
      }
    }
    if OpenOnly(es) {
      forall k | 0 <= k < |a| && a[k].IsDelta()
        ensures a[k].index == Starts(a[..k]) - 1 && Stops(a[..k]) < Starts(a[..k])
      {
        assert es[k] == a[k];
      }
      forall k | 0 <= k < |b| && b[k].IsDelta()
        ensures b[k].index == Starts(a) + Starts(b[..k]) - 1 && Stops(a) + Stops(b[..k]) < Starts(a) + Starts(b[..k])
      {
        assert es[|a| + k] == b[k];
      }
    }
  }

  lemma OpenOnlyFromSnoc(starts: nat, stops: nat, es: seq<Event>, e: Event)
    ensures OpenOnlyFrom(starts, stops, es + [e])
       <==> OpenOnlyFrom(starts, stops, es)
            && (e.IsDelta() ==> e.index == starts + Starts(es) - 1 && stops + Stops(es) < starts + Starts(es))
  {
    var all := es + [e];
    assert forall k :: 0 <= k <= |es| ==> all[..k] == es[..k];
    assert es[..|es|] == es;
    if OpenOnlyFrom(starts, stops, all) {
      assert all[|es|] == e;
      forall k | 0 <= k < |es| && es[k].IsDelta()
        ensures es[k].index == starts + Starts(es[..k]) - 1 && stops + Stops(es[..k]) < starts + Starts(es[..k])
      {
        assert all[k] == es[k];
      }
    }
  }

  lemma NothingInPlace(starts: nat, stops: nat)
    ensures OpenOnlyFrom(starts, stops, []) && Starts([]) == 0 && Stops([]) == 0
  {
  }

  /** Opening a block sends no delta out of place: the old block's signature comes while it is open. */
  lemma OpenedInPlace(st: State, starts: nat, kind: Kind, id: ToolId, name: string)
    requires st.index == starts - 1 && (st.kind.Some? ==> starts > 0)
    ensures var o := Opened(st, kind, id, name);
            var stops := starts - (if st.kind.Some? then 1 else 0);
            OpenOnlyFrom(starts, stops, o.out) && Starts(o.out) == 1 && stops + Stops(o.out) == starts
  {
    var closed := Closed(st).out;
    var start := BlockStart(st.index + 1, kind, id, name);
    var stops: nat := starts - (if st.kind.Some? then 1 else 0);
    ClosedInPlace(st, starts);
    CountOne(start);
    hide Closed, Starts, Stops, OpenOnlyFrom;
    OpenOnlyFromSnoc(starts, stops, closed, start);
    CountsAppend(closed, [start]);
  }

  lemma CountOne(e: Event)
    ensures Starts([e]) == (if e.BlockStart? then 1 else 0) && Stops([e]) == (if e.BlockStop? then 1 else 0)
  {
    assert [e][..0] == [];
  }

  lemma ClosedInPlace(st: State, starts: nat)
    requires st.index == starts - 1 && (st.kind.Some? ==> starts > 0)
    ensures var stops: nat := starts - (if st.kind.Some? then 1 else 0);
            OpenOnlyFrom(starts, stops, Closed(st).out) && Starts(Closed(st).out) == 0
                && stops + Stops(Closed(st).out) == starts
  {
    var stops: nat := starts - (if st.kind.Some? then 1 else 0);
    var sign, stop := SignatureDelta(st.index), BlockStop(st.index);
    CountOne(sign);
    CountOne(stop);
    NothingInPlace(starts, stops);
    hide OpenOnlyFrom, Starts, Stops;
    if st.kind == None {
      assert Closed(st).out == [];
    } else {
      OpenOnlyFromSnoc(starts, stops, [], stop);
      OpenOnlyFromSnoc(starts, stops, [], sign);
      assert [] + [stop] == [stop] && [] + [sign] == [sign];
      OpenOnlyFromSnoc(starts, stops, [sign], stop);
      CountsAppend([sign], [stop]);
    }
  }

  ghost predicate ReturnsNow(ps: seq<Piece>, p: Piece) {
    && p.Call? && p.delta.arguments != ""
    && ToolIndex(p.delta) in ToolsSeen(ps)
    && OwnerOf(ps) != Caller(ToolIndex(p.delta))
  }

  lemma StepOpenOnly(st: State, c: Client, ps: seq<Piece>, p: Piece)
    requires InStep(st, c) && Tracks(st, ps)
    ensures OpenOnlyFrom(|c.blocks|, |c.blocks| - (if st.kind.Some? then 1 else 0), Step(st, p).out)
            <==> !ReturnsNow(ps, p)
  {
    match p {
      case Count(_) => NothingInPlace(|c.blocks|, |c.blocks| - (if st.kind.Some? then 1 else 0));
      case Finish(_, _) => NothingInPlace(|c.blocks|, |c.blocks| - (if st.kind.Some? then 1 else 0));
      case Think(text) => ProseOpenOnly(st, c, Thinking, ThinkingDelta(Ready(st, Thinking).st.index, text));
      case Say(text) => ProseOpenOnly(st, c, Text, TextDelta(Ready(st, Text).st.index, text));
      case Call(d) => CallOpenOnly(st, c, ps, d);
    }
  }

  /** Prose always goes to the open block. */
  lemma ProseOpenOnly(st: State, c: Client, kind: Kind, delta: Event)
    requires InStep(st, c) && delta.IsDelta() && delta.index == Ready(st, kind).st.index
    ensures OpenOnlyFrom(|c.blocks|, |c.blocks| - (if st.kind.Some? then 1 else 0), Ready(st, kind).out + [delta])
  {
    var starts := |c.blocks|;
    var stops: nat := starts - (if st.kind.Some? then 1 else 0);
    NothingInPlace(starts, stops);
    OpenedKind(st, kind, Minted, "");
    if st.kind != Some(kind) {
      OpenedInPlace(st, starts, kind, Minted, "");
    }
    hide Opened, OpenOnlyFrom, Starts, Stops;
    OpenOnlyFromSnoc(starts, stops, Ready(st, kind).out, delta);
  }

  lemma OpenedKind(st: State, kind: Kind, id: ToolId, name: string)
    ensures Opened(st, kind, id, name).st.index == st.index + 1
  {
  }

  /** A known tool's block is the open one exactly when the last block opened is that tool's. */
  lemma OpenWhenOwned(st: State, c: Client, ps: seq<Piece>, i: int)
    requires InStep(st, c) && Tracks(st, ps) && i in st.tools
    ensures (st.kind.Some? && st.tools[i] == st.index) <==> OwnerOf(ps) == Caller(i)
  {
    hide OwnerOf, ToolsSeen;
  }

  lemma CallOpenOnly(st: State, c: Client, ps: seq<Piece>, d: ToolDelta)
    requires InStep(st, c) && Tracks(st, ps)
    ensures OpenOnlyFrom(|c.blocks|, |c.blocks| - (if st.kind.Some? then 1 else 0), Step(st, Call(d)).out)
       <==> !ReturnsNow(ps, Call(d))
  {
    hide Opened, OpenOnlyFrom, Starts, Stops, OwnerOf, ToolsSeen;
    var starts := |c.blocks|;
    var stops: nat := starts - (if st.kind.Some? then 1 else 0);
    var ready, i := ToolReady(st, d), ToolIndex(d);
    if i !in st.tools {
      OpenedInPlace(st, starts, Tool, IdOf(d.id), d.name);
      OpenedKind(st, Tool, IdOf(d.id), d.name);
    } else {
      NothingInPlace(starts, stops);
      OpenWhenOwned(st, c, ps, i);
    }
    if d.arguments == "" {
      assert ready.out + [] == ready.out;
    } else {
      OpenOnlyFromSnoc(starts, stops, ready.out, JsonDelta(ready.st.tools[i], d.arguments));
    }
  }

  lemma SentSoFar(ps: seq<Piece>)
    ensures var sent := [MessageStart] + Run(BEGUN, ps).out;
            Fold(FRESH, sent) == Reader(ps)
            && Starts(sent) == |Reader(ps).blocks|
            && Stops(sent) == Starts(sent) - (if Run(BEGUN, ps).st.kind.Some? then 1 else 0)
  {
    RunInStep(ps);
    FoldOne(FRESH, MessageStart);
    FoldAppend(FRESH, [MessageStart], Run(BEGUN, ps).out);
    FoldSees([MessageStart] + Run(BEGUN, ps).out);
  }

  lemma {:induction false} RunOpenOnly(ps: seq<Piece>)
    ensures OpenOnly([MessageStart] + Run(BEGUN, ps).out) <==> forall k :: 0 <= k < |ps| ==> !Returns(ps, k)
  {
    hide Step, Tracks;
    if ps == [] {
      assert [MessageStart] + Run(BEGUN, ps).out == [MessageStart];
    } else {
      var init, p := ps[..|ps| - 1], ps[|ps| - 1];
      assert ps == init + [p];
      var sent, st := [MessageStart] + Run(BEGUN, init).out, Run(BEGUN, init).st;
      RunOpenOnly(init);
      RunSnoc(BEGUN, init, p);
      assert [MessageStart] + Run(BEGUN, ps).out == sent + Step(st, p).out;
      OpenOnlyAppend(sent, Step(st, p).out);
      SentSoFar(init);
      RunInStep(init);
      RunTracks(init);
      StepOpenOnly(st, Reader(init), init, p);
      assert Returns(ps, |init|) <==> ReturnsNow(init, p);
      assert forall k :: 0 <= k < |init| ==> ps[..k] == init[..k] && ps[k] == init[k];
      assert forall k :: 0 <= k < |init| ==> (Returns(ps, k) <==> Returns(init, k));
    }
  }

  /** Every delta names the open block exactly when no tool call gets arguments after another block opened. */
  lemma DeltasInOpenBlock(stops: seq<string>, chunks: seq<Chunk>)
    ensures OpenOnly(Transcript(stops, chunks))
            <==> forall k :: 0 <= k < |Pieces(chunks)| ==> !Returns(Pieces(chunks), k)
  {
    hide Step, Fold, Closed, Returns, OpenOnlyFrom, Starts, Stops, Transcript;
    var ps := Pieces(chunks);
    var st := Run(BEGUN, ps).st;
    var sent, sum := [MessageStart] + Run(BEGUN, ps).out, [Summary(st, stops)] + [MessageStop];
    TranscriptIsRun(stops, chunks);
    assert Transcript(stops, chunks) == sent + (Closed(st).out + sum);
    RunOpenOnly(ps);
    SentSoFar(ps);
    RunInStep(ps);
    ClosingInPlace(st, Starts(sent), sum);
    OpenOnlyAppend(sent, Closed(st).out + sum);
  }

  lemma ClosingInPlace(st: State, starts: nat, sum: seq<Event>)
    requires st.index == starts - 1 && (st.kind.Some? ==> starts > 0)
    requires forall k :: 0 <= k < |sum| ==> !sum[k].IsDelta()
    ensures OpenOnlyFrom(starts, starts - (if st.kind.Some? then 1 else 0), Closed(st).out + sum)
  {
  }
}
