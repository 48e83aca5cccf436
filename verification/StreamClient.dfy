/** A client that reads the translated stream, and what every stream it can be
    sent looks like: the event grammar, and where each delta lands. */
module StreamClient {
  import opened Messages

  // -------------------------------------------------------------- client --

  /** A content block as a client builds it; for a tool call, text is its argument string. */
  datatype Live = Live(kind: Kind, id: ToolId, name: string, text: string)

  datatype Phase = Waiting | Receiving | Summed | Finished | Broken

  datatype Client = Client(phase: Phase, blocks: seq<Live>, open: bool, stop: Stop, inputTokens: int,
                           outputTokens: int)

  const FRESH := Client(Waiting, [], false, EndTurn, 0, 0)

  function Append(blocks: seq<Live>, at: int, text: string): (after: seq<Live>)
    requires 0 <= at < |blocks|
    ensures |after| == |blocks|
  {
    blocks[at := blocks[at].(text := blocks[at].text + text)]
  }

  /** Blocks are numbered from 0 and opened one at a time; a delta goes to any
      block that was started and has the delta's kind. Anything else breaks the client. */
  function Receive(c: Client, e: Event): Client {
    match e
    case MessageStart =>
      if c.phase == Waiting then c.(phase := Receiving) else c.(phase := Broken)
    case BlockStart(index, kind, id, name) =>
      if c.phase == Receiving && !c.open && index == |c.blocks|
      then c.(blocks := c.blocks + [Live(kind, id, name, "")], open := true)
      else c.(phase := Broken)
    case BlockStop(index) =>
      if c.phase == Receiving && c.open && index == |c.blocks| - 1 then c.(open := false)
      else c.(phase := Broken)
    case MessageDelta(stop, inputTokens, outputTokens) =>
      if c.phase == Receiving && !c.open
      then c.(phase := Summed, stop := stop, inputTokens := inputTokens, outputTokens := outputTokens)
      else c.(phase := Broken)
    case MessageStop =>
      if c.phase == Summed then c.(phase := Finished) else c.(phase := Broken)
    case _ =>
      if c.phase == Receiving && 0 <= e.index < |c.blocks| && c.blocks[e.index].kind == e.DeltaKind()
      then c.(blocks := Append(c.blocks, e.index, e.Payload()))
      else c.(phase := Broken)
  }

  function Fold(c: Client, es: seq<Event>): Client {
    if es == [] then c else Receive(Fold(c, es[..|es| - 1]), es[|es| - 1])
  }

  lemma FoldSnoc(c: Client, es: seq<Event>, e: Event)
    ensures Fold(c, es + [e]) == Receive(Fold(c, es), e)
  {
    assert (es + [e])[..|es|] == es;
  }

  lemma {:induction false} FoldAppend(c: Client, a: seq<Event>, b: seq<Event>)
    ensures Fold(c, a + b) == Fold(Fold(c, a), b)
  {
    hide Receive;
    if b == [] {
      assert a + b == a;
    } else {
      assert a + b == (a + b[..|b| - 1]) + [b[|b| - 1]];
      FoldAppend(c, a, b[..|b| - 1]);
      FoldSnoc(c, a + b[..|b| - 1], b[|b| - 1]);
    }
  }

  // ------------------------------------------------------------- grammar --

  /** How many blocks a stretch of events starts, and stops. */
  function Starts(es: seq<Event>): nat {
    if es == [] then 0 else Starts(es[..|es| - 1]) + (if es[|es| - 1].BlockStart? then 1 else 0)
  }

  function Stops(es: seq<Event>): nat {
    if es == [] then 0 else Stops(es[..|es| - 1]) + (if es[|es| - 1].BlockStop? then 1 else 0)
  }

  ghost predicate Announced(es: seq<Event>, index: int, kind: Kind) {
    exists j :: 0 <= j < |es| && es[j].BlockStart? && es[j].index == index && es[j].kind == kind
  }

  /** What each event needs of those before it. */
  ghost predicate InPlace(es: seq<Event>, k: nat)
    requires k < |es|
  {
    && (es[k].BlockStart? ==> es[k].index == Starts(es[..k]) == Stops(es[..k]))
    && (es[k].BlockStop? ==> es[k].index == Starts(es[..k]) - 1 == Stops(es[..k]))
    && (es[k].IsDelta() ==> Announced(es[..k], es[k].index, es[k].DeltaKind()))
  }

  /** One message_start first; blocks numbered 0, 1, 2, ..., each stopped once before the next starts; every
      delta names a started block of its own kind; message_delta then message_stop last, nowhere else. */
  ghost predicate WellFormed(es: seq<Event>) {
    && |es| >= 3
    && (forall k :: 0 <= k < |es| ==> (es[k].MessageStart? <==> k == 0))
    && (forall k :: 0 <= k < |es| ==> (es[k].MessageDelta? <==> k == |es| - 2))
    && (forall k :: 0 <= k < |es| ==> (es[k].MessageStop? <==> k == |es| - 1))
    && Starts(es) == Stops(es)
    && (forall k :: 0 <= k < |es| ==> InPlace(es, k))
  }

  /** The strict form: a delta only ever goes to the block that is open. */
  ghost predicate OpenOnly(es: seq<Event>) {
    forall k :: 0 <= k < |es| && es[k].IsDelta() ==>
      es[k].index == Starts(es[..k]) - 1 && Stops(es[..k]) < Starts(es[..k])
  }

  /** The blocks of a client that is not broken are those started, each of its kind and stopped but the open one. */
  ghost predicate Built(es: seq<Event>, c: Client) {
    && |c.blocks| == Starts(es)
    && Stops(es) == Starts(es) - (if c.open then 1 else 0)
    && (forall k :: 0 <= k < |es| ==> InPlace(es, k))
    && (forall b :: 0 <= b < |c.blocks| ==> Announced(es, b, c.blocks[b].kind))
  }

  /** And its phase tells which of the events around the blocks it has seen. */
  ghost predicate Paced(es: seq<Event>, c: Client) {
    && (c.phase == Waiting <==> es == [])
    && (forall k :: 0 <= k < |es| ==> (es[k].MessageStart? <==> k == 0))
    && (c.phase == Summed ==> |es| >= 2) && (c.phase == Finished ==> |es| >= 3)
    && (forall k :: 0 <= k < |es| ==>
          (es[k].MessageDelta? <==> ((c.phase == Summed && k == |es| - 1) || (c.phase == Finished && k == |es| - 2))))
    && (forall k :: 0 <= k < |es| ==> (es[k].MessageStop? <==> c.phase == Finished && k == |es| - 1))
    && (c.phase in {Summed, Finished} ==> !c.open)
  }

  /** What a client that is not broken has seen so far. */
  ghost predicate Seen(es: seq<Event>, c: Client) { Built(es, c) && Paced(es, c) }

  lemma AnnouncedStays(es: seq<Event>, e: Event, index: int, kind: Kind)
    requires Announced(es, index, kind)
    ensures Announced(es + [e], index, kind)
  {
    var j :| 0 <= j < |es| && es[j].BlockStart? && es[j].index == index && es[j].kind == kind;
    assert (es + [e])[j] == es[j];
  }

  lemma InPlaceStays(es: seq<Event>, e: Event, k: nat)
    requires k < |es| && InPlace(es, k)
    ensures InPlace(es + [e], k) && (es + [e])[k] == es[k]
  {
    hide Announced, Starts, Stops;
    assert (es + [e])[..k] == es[..k];
  }

  lemma NextInPlace(es: seq<Event>, c: Client, e: Event)
    requires Built(es, c) && c.phase != Broken && Receive(c, e).phase != Broken
    ensures InPlace(es + [e], |es|)
  {
    hide Announced, Starts, Stops;
    assert (es + [e])[..|es|] == es;
  }

  lemma BuiltSnoc(es: seq<Event>, c: Client, e: Event)
    requires Built(es, c) && c.phase != Broken && Receive(c, e).phase != Broken
    ensures Built(es + [e], Receive(c, e))
  {
    var all, after := es + [e], Receive(c, e);
    assert all[..|es|] == es;
    forall k | 0 <= k < |es|
      ensures InPlace(all, k)
    {
      InPlaceStays(es, e, k);
    }
    NextInPlace(es, c, e);
    hide InPlace;
    forall b | 0 <= b < |after.blocks|
      ensures Announced(all, b, after.blocks[b].kind)
    {
      if b < |c.blocks| {
        AnnouncedStays(es, e, b, c.blocks[b].kind);
      } else {
        assert all[|es|] == e;
      }
    }
  }

  lemma PacedSnoc(es: seq<Event>, c: Client, e: Event)
    requires Paced(es, c) && c.phase != Broken && Receive(c, e).phase != Broken
    ensures Paced(es + [e], Receive(c, e))
  {
    var all := es + [e];
    assert forall k :: 0 <= k < |es| ==> all[k] == es[k];
  }

  lemma SeenSnoc(es: seq<Event>, c: Client, e: Event)
    requires Seen(es, c) && c.phase != Broken && Receive(c, e).phase != Broken
    ensures Seen(es + [e], Receive(c, e))
  {
    hide Built, Paced, Receive;
    BuiltSnoc(es, c, e);
    PacedSnoc(es, c, e);
  }

  lemma {:induction false} FoldSees(es: seq<Event>)
    requires Fold(FRESH, es).phase != Broken
    ensures Seen(es, Fold(FRESH, es))
  {
    if es != [] {
      var init := es[..|es| - 1];
      assert Fold(FRESH, es) == Receive(Fold(FRESH, init), es[|es| - 1]);
      assert Fold(FRESH, init).phase != Broken;
      FoldSees(init);
      SeenSnoc(init, Fold(FRESH, init), es[|es| - 1]);
      assert es == init + [es[|es| - 1]];
    }
  }

  /** A client that reaches the end unbroken was sent a well-formed stream. */
  lemma FinishedMeansWellFormed(es: seq<Event>)
    requires Fold(FRESH, es).phase == Finished
    ensures WellFormed(es)
  {
    FoldSees(es);
  }
}
