/** What a stream spends its events on: every thinking block is signed just before it stops, nothing else is, and no
    delta is empty. */
module StreamShape {
  import opened Prelude
  import opened Messages
  import opened Translator
  import opened StreamRuns
  import opened StreamAgreement

  /** The kind of the last block started, or the one given if none was. */
  function LastKind(es: seq<Event>, kind: Option<Kind>): Option<Kind> {
    if es == [] then kind
    else if es[|es| - 1].BlockStart? then Some(es[|es| - 1].kind)
    else LastKind(es[..|es| - 1], kind)
  }

  /** A stop comes just after a signature exactly when it stops a thinking block; a signature comes before a stop; and
      every other delta carries something. */
  ghost predicate SignedAt(es: seq<Event>, kind: Option<Kind>, k: nat)
    requires k < |es|
  {
    && (es[k].BlockStop? ==>
          (LastKind(es[..k], kind) == Some(Thinking) <==> k > 0 && es[k - 1] == SignatureDelta(es[k].index)))
    && (es[k].SignatureDelta? ==> k + 1 < |es| && es[k + 1] == BlockStop(es[k].index))
    && (es[k].IsDelta() && !es[k].SignatureDelta? ==> es[k].Payload() != "")
  }

  ghost predicate Signed(es: seq<Event>, kind: Option<Kind>) {
    forall k :: 0 <= k < |es| ==> SignedAt(es, kind, k)
  }

  lemma {:induction false} LastKindJoined(a: seq<Event>, b: seq<Event>, kind: Option<Kind>)
    ensures LastKind(a + b, kind) == LastKind(b, LastKind(a, kind))
  {
    if b == [] {
      assert a + b == a;
    } else {
      assert (a + b)[..|a + b| - 1] == a + b[..|b| - 1];
      LastKindJoined(a, b[..|b| - 1], kind);
    }
  }

  lemma SignedJoined(a: seq<Event>, b: seq<Event>, kind: Option<Kind>)
    requires Signed(a, kind) && Signed(b, LastKind(a, kind))
    ensures Signed(a + b, kind)
  {
    hide LastKind;
    var all := a + b;
    assert a != [] ==> SignedAt(a, kind, |a| - 1);
    forall k | 0 <= k < |all|
      ensures SignedAt(all, kind, k)
    {
      if k < |a| {
        assert all[k] == a[k] && all[..k] == a[..k] && SignedAt(a, kind, k);
      } else {
        assert all[k] == b[k - |a|] && all[..k] == a + b[..k - |a|] && SignedAt(b, LastKind(a, kind), k - |a|);
        LastKindJoined(a, b[..k - |a|], kind);
      }
    }
  }

  lemma LastKindSnoc(es: seq<Event>, e: Event, kind: Option<Kind>)
    ensures LastKind(es + [e], kind) == if e.BlockStart? then Some(e.kind) else LastKind(es, kind)
  {
    assert (es + [e])[..|es|] == es;
  }

  lemma SignedSnoc(es: seq<Event>, e: Event, kind: Option<Kind>)
    requires Signed(es, kind) && !e.BlockStop? && !e.SignatureDelta? && (e.IsDelta() ==> e.Payload() != "")
    ensures Signed(es + [e], kind)
  {
    hide LastKind;
    assert [e][..0] == [];
    SignedJoined(es, [e], kind);
  }

  /** The state's open block is the last started. */
  ghost predicate Follows(st: State, kind: Option<Kind>) { st.kind.Some? ==> st.kind == kind }

  lemma NothingSigned(kind: Option<Kind>)
    ensures Signed([], kind) && LastKind([], kind) == kind
  {
  }

  lemma ClosedSigned(st: State, kind: Option<Kind>)
    requires Follows(st, kind)
    ensures Signed(Closed(st).out, kind) && LastKind(Closed(st).out, kind) == kind
  {
    var out := Closed(st).out;
    if st.kind == Some(Thinking) {
      assert out == [] + [SignatureDelta(st.index)] + [BlockStop(st.index)];
      LastKindSnoc([], SignatureDelta(st.index), kind);
      LastKindSnoc([] + [SignatureDelta(st.index)], BlockStop(st.index), kind);
      assert out[..1] == [] + [SignatureDelta(st.index)];
    } else if st.kind.Some? {
      assert out == [] + [BlockStop(st.index)];
      LastKindSnoc([], BlockStop(st.index), kind);
    }
  }

  lemma OpenedSigned(st: State, kind: Option<Kind>, newKind: Kind, id: ToolId, name: string)
    requires Follows(st, kind)
    ensures var now := Opened(st, newKind, id, name);
            Signed(now.out, kind) && LastKind(now.out, kind) == Some(newKind) && now.st.kind == Some(newKind)
  {
    hide LastKind, Signed;
    ClosedSigned(st, kind);
    SignedSnoc(Closed(st).out, BlockStart(st.index + 1, newKind, id, name), kind);
    LastKindSnoc(Closed(st).out, BlockStart(st.index + 1, newKind, id, name), kind);
  }

  lemma StepSigned(st: State, kind: Option<Kind>, p: Piece)
    requires Follows(st, kind) && (p.Think? || p.Say? ==> p.text != "")
    ensures Signed(Step(st, p).out, kind) && Follows(Step(st, p).st, LastKind(Step(st, p).out, kind))
  {
    hide LastKind, Signed, Opened;
    NothingSigned(kind);
    match p {
      case Count(_) =>
      case Finish(_, _) =>
      case Think(text) => ReadySigned(st, kind, Thinking, ThinkingDelta(Ready(st, Thinking).st.index, text));
      case Say(text) => ReadySigned(st, kind, Text, TextDelta(Ready(st, Text).st.index, text));
      case Call(d) =>
        var ready := ToolReady(st, d);
        if ToolIndex(d) !in st.tools {
          OpenedSigned(st, kind, Tool, IdOf(d.id), d.name);
        }
        if d.arguments != "" {
          var delta := JsonDelta(ready.st.tools[ToolIndex(d)], d.arguments);
          SignedSnoc(ready.out, delta, kind);
          LastKindSnoc(ready.out, delta, kind);
        } else {
          assert ready.out + [] == ready.out;
        }
    }
  }

  lemma ReadySigned(st: State, kind: Option<Kind>, newKind: Kind, delta: Event)
    requires Follows(st, kind) && delta.IsDelta() && !delta.SignatureDelta? && delta.Payload() != ""
    ensures var ready := Ready(st, newKind);
            Signed(ready.out + [delta], kind) && Follows(ready.st, LastKind(ready.out + [delta], kind))
  {
    hide LastKind, Signed, Opened;
    var ready := Ready(st, newKind);
    NothingSigned(kind);
    if st.kind != Some(newKind) {
      OpenedSigned(st, kind, newKind, Minted, "");
    }
    SignedSnoc(ready.out, delta, kind);
    LastKindSnoc(ready.out, delta, kind);
  }

  lemma {:induction false} RunSigned(ps: seq<Piece>)
    requires Substantive(ps)
    ensures Signed(Run(BEGUN, ps).out, None)
    ensures Follows(Run(BEGUN, ps).st, LastKind(Run(BEGUN, ps).out, None))
  {
    hide Step, Signed, LastKind;
    NothingSigned(None);
    if ps != [] {
      var init, p := ps[..|ps| - 1], ps[|ps| - 1];
      RunSigned(init);
      var ran := Run(BEGUN, init);
      StepSigned(ran.st, LastKind(ran.out, None), p);
      SignedJoined(ran.out, Step(ran.st, p).out, None);
      LastKindJoined(ran.out, Step(ran.st, p).out, None);
    }
  }

  /** Every stream, for any chunks. */
  lemma TranscriptSigned(stops: seq<string>, chunks: seq<Chunk>)
    ensures Signed(Transcript(stops, chunks), None)
  {
    hide *;
    var ran := Run(BEGUN, Pieces(chunks));
    TranscriptIsRun(stops, chunks);
    ChunksSubstantive(chunks);
    RunSigned(Pieces(chunks));
    ClosedSigned(ran.st, LastKind(ran.out, None));
    NothingSigned(None);
    SummaryPlain(ran.st, stops);
    SignedSnoc([], MessageStart, None);
    LastKindSnoc([], MessageStart, None);
    assert [] + [MessageStart] == [MessageStart];
    SignedJoined([MessageStart], ran.out, None);
    LastKindJoined([MessageStart], ran.out, None);
    SignedJoined([MessageStart] + ran.out, Closed(ran.st).out, None);
    SignedSnoc([MessageStart] + ran.out + Closed(ran.st).out, Summary(ran.st, stops), None);
    SignedSnoc([MessageStart] + ran.out + Closed(ran.st).out + [Summary(ran.st, stops)], MessageStop, None);
  }

  lemma SummaryPlain(st: State, stops: seq<string>)
    ensures var e := Summary(st, stops); !e.BlockStop? && !e.SignatureDelta? && !e.IsDelta()
    ensures !MessageStart.IsDelta() && !MessageStop.IsDelta()
  {
  }
}
