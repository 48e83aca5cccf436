/** The conversation to_openai sends an engine, and what becomes of a reply that comes back as history. */
module Conversation {
  import opened Prelude
  import opened Messages

  /** JSON, abstractly: a printer and a parser, the object from_openai keeps unparsed arguments in, {}, and
      what counts as true. */
  datatype Json<!J> = Json(parse: string -> Option<J>, printed: J -> string, raw: string -> J, empty: J,
        truthy: J -> bool)

  ghost predicate Faithful<J(!new)>(c: Json<J>) {
    && (forall j :: c.printed(j) != "" && c.parse(c.printed(j)) == Some(j))
    && c.parse("{}") == Some(c.empty) && !c.truthy(c.empty)
    && (forall s :: c.truthy(c.raw(s)))
  }

  datatype Source = Base64(mediaType: string, data: string) | Url(url: string)

  /** A tool result's content: one string, or the texts of its text blocks. */
  datatype Outcome = Whole(text: string) | Pieces(texts: seq<string>)

  /** A block of a request's turn; Given("") is a missing id, None a missing or null input. */
  datatype Part<J> =
    | Said(text: string)
    | Use(id: ToolId, name: string, input: Option<J>)
    | Result(toolUseId: string, content: Outcome, isError: bool)
    | Image(source: Source)
    | Document(plain: Option<string>)
    | Other

  /** A request's system prompt: a string, "" if there is none, or a list of blocks. */
  datatype Prompt<J> = Plain(text: string) | Blocks(parts: seq<Part<J>>)

  datatype Turn<J> = Turn(assistant: bool, parts: seq<Part<J>>)

  datatype Call = Call(id: ToolId, name: string, arguments: string)

  datatype Piece = TextPiece(text: string) | ImagePiece(url: string)

  /** A chat completions message. */
  datatype Sent =
    | System(text: string)
    | Assistant(content: Option<string>, calls: seq<Call>)
    | Answer(toolCallId: string, text: string)
    | UserText(text: string)
    | UserPieces(pieces: seq<Piece>)

  function Join(texts: seq<string>, sep: string): string {
    if texts == [] then ""
    else if |texts| == 1 then texts[0]
    else Join(texts[..|texts| - 1], sep) + sep + texts[|texts| - 1]
  }

  function ResultText(content: Outcome, isError: bool): string {
    (if isError then "[error] " else "") + if content.Whole? then content.text else Join(content.texts, "\n")
  }

  function ImageUrl(s: Source): string {
    if s.Url? then s.url else "data:" + (if s.mediaType == "" then "image/png" else s.mediaType) + ";base64," + s.data
  }

  function TextOf<J>(p: Part<J>): string { if p.Said? then p.text else "" }

  function CallFor<J>(c: Json<J>, id: ToolId, name: string, input: Option<J>): Call {
    Call(if id == Given("") then Minted else id, name,
         c.printed(if input.Some? && c.truthy(input.value) then input.value else c.empty))
  }

  function CallsOf<J>(c: Json<J>): Part<J> -> seq<Call> {
    (p: Part<J>) => if p.Use? then [CallFor(c, p.id, p.name, p.input)] else []
  }

  function AnswerOf<J>(p: Part<J>): seq<Sent> {
    if p.Result? then [Answer(p.toolUseId, ResultText(p.content, p.isError))] else []
  }

  function PiecesOf<J>(p: Part<J>): seq<Piece> {
    match p
    case Said(text) => [TextPiece(text)]
    case Image(source) => [ImagePiece(ImageUrl(source))]
    case Document(plain) => if plain.Some? then [TextPiece(plain.value)] else []
    case _ => []
  }

  predicate OnlyText(pieces: seq<Piece>) { forall k :: 0 <= k < |pieces| ==> pieces[k].TextPiece? }

  function Texts(pieces: seq<Piece>): seq<string>
    requires OnlyText(pieces)
  {
    seq(|pieces|, k requires 0 <= k < |pieces| => pieces[k].text)
  }

  /** What a user turn says, in one message: a string if it is all text. */
  function Spoken(pieces: seq<Piece>): seq<Sent> {
    if pieces == [] then []
    else if OnlyText(pieces) then [UserText(Join(Texts(pieces), "\n\n"))]
    else [UserPieces(pieces)]
  }

  function OrNone(s: string): Option<string> { if s == "" then None else Some(s) }

  /** A turn as messages; a user turn's tool results come first. */
  function TurnOf<J>(c: Json<J>): Turn<J> -> seq<Sent> {
    (t: Turn<J>) =>
      if t.assistant then [Assistant(OrNone(FlatMap(t.parts, TextOf)), FlatMap(t.parts, CallsOf(c)))]
      else FlatMap(t.parts, AnswerOf) + Spoken(FlatMap(t.parts, PiecesOf))
  }

  function SaidText<J>(p: Part<J>): seq<string> { if p.Said? then [p.text] else [] }

  /** The system message: one is sent for every prompt but an empty string or list, even if its blocks hold no text. */
  function Prompted<J>(system: Prompt<J>): seq<Sent> {
    match system
    case Plain(text) => if text == "" then [] else [System(text)]
    case Blocks(parts) => if parts == [] then [] else [System(Join(FlatMap(parts, SaidText), "\n\n"))]
  }

  function Conversed<J>(c: Json<J>, system: Prompt<J>, turns: seq<Turn<J>>): seq<Sent> {
    Prompted(system) + FlatMap(turns, TurnOf(c))
  }

  /** text_of, of a prompt given as blocks. */
  method PromptText<J>(parts: seq<Part<J>>) returns (texts: seq<string>)
    ensures texts == FlatMap(parts, SaidText)
  {
    texts := [];
    for k := 0 to |parts|
      invariant texts == FlatMap(parts[..k], SaidText)
    {
      FlatMapSnoc(parts[..k], parts[k], SaidText);
      assert parts[..k] + [parts[k]] == parts[..k + 1];
      if parts[k].Said? {
        texts := texts + [parts[k].text];
      }
    }
    assert parts[..|parts|] == parts;
  }

  method TurnCalls<J>(c: Json<J>, parts: seq<Part<J>>) returns (text: string, calls: seq<Call>)
    ensures text == FlatMap(parts, TextOf) && calls == FlatMap(parts, CallsOf(c))
  {
    text, calls := "", [];
    for k := 0 to |parts|
      invariant text == FlatMap(parts[..k], TextOf) && calls == FlatMap(parts[..k], CallsOf(c))
    {
      var p := parts[k];
      FlatMapSnoc(parts[..k], p, TextOf);
      FlatMapSnoc(parts[..k], p, CallsOf(c));
      hide FlatMap;
      assert parts[..k] + [p] == parts[..k + 1];
      text := text + if p.Said? then p.text else "";
      calls := calls + if p.Use? then [CallFor(c, p.id, p.name, p.input)] else [];
    }
    assert parts[..|parts|] == parts;
  }

  method TurnResults<J>(parts: seq<Part<J>>) returns (answers: seq<Sent>)
    ensures answers == FlatMap(parts, AnswerOf)
  {
    answers := [];
    for k := 0 to |parts|
      invariant answers == FlatMap(parts[..k], AnswerOf)
    {
      FlatMapSnoc(parts[..k], parts[k], AnswerOf);
      assert parts[..k] + [parts[k]] == parts[..k + 1];
      if parts[k].Result? {
        answers := answers + [Answer(parts[k].toolUseId, ResultText(parts[k].content, parts[k].isError))];
      }
    }
    assert parts[..|parts|] == parts;
  }

  lemma TurnNext<J>(c: Json<J>, system: Prompt<J>, turns: seq<Turn<J>>, i: nat)
    requires i < |turns|
    ensures Conversed(c, system, turns[..i + 1]) == Conversed(c, system, turns[..i]) + TurnOf(c)(turns[i])
  {
    hide FlatMap, TurnOf;
    FlatMapSnoc(turns[..i], turns[i], TurnOf(c));
    assert turns[..i] + [turns[i]] == turns[..i + 1];
  }

  /** The messages of to_openai, appended turn by turn. */
  method ToOpenAi<J>(c: Json<J>, system: Prompt<J>, turns: seq<Turn<J>>) returns (msgs: seq<Sent>)
    ensures msgs == Conversed(c, system, turns)
  {
    msgs := [];
    match system {
      case Plain(text) =>
        if text != "" {
          msgs := [System(text)];
        }
      case Blocks(parts) =>
        if parts != [] {
          var texts := PromptText(parts);
          msgs := [System(Join(texts, "\n\n"))];
        }
    }
    assert turns[..0] == [] && msgs == Conversed(c, system, []);
    hide FlatMap, Spoken, OrNone, Conversed;
    for i := 0 to |turns|
      invariant msgs == Conversed(c, system, turns[..i])
    {
      TurnNext(c, system, turns, i);
      if turns[i].assistant {
        var text, calls := TurnCalls(c, turns[i].parts);
        msgs := msgs + [Assistant(OrNone(text), calls)];
      } else {
        var answers := TurnResults(turns[i].parts);
        var pieces := SaidPieces(turns[i].parts);
        msgs := msgs + (answers + Spoken(pieces));
      }
    }
    assert turns[..|turns|] == turns;
  }

  method SaidPieces<J>(parts: seq<Part<J>>) returns (pieces: seq<Piece>)
    ensures pieces == FlatMap(parts, PiecesOf)
  {
    pieces := [];
    FlatMapNothing(parts[..0], PiecesOf);
    hide FlatMap;
    for k := 0 to |parts|
      invariant pieces == FlatMap(parts[..k], PiecesOf)
    {
      FlatMapSnoc(parts[..k], parts[k], PiecesOf);
      assert parts[..k] + [parts[k]] == parts[..k + 1];
      match parts[k] {
        case Said(text) => pieces := pieces + [TextPiece(text)];
        case Image(source) => pieces := pieces + [ImagePiece(ImageUrl(source))];
        case Document(plain) =>
          if plain.Some? {
            pieces := pieces + [TextPiece(plain.value)];
          }
        case _ =>
      }
    }
    assert parts[..|parts|] == parts;
  }

  // ------------------------------------------------------------ what is kept

  /** The answers to an assistant's calls come right after it, in the order the user turn gave them. */
  lemma AnswersFollowCalls<J>(c: Json<J>, system: Prompt<J>, turns: seq<Turn<J>>, k: nat) returns (after: seq<Sent>)
    requires k + 1 < |turns| && turns[k].assistant && !turns[k + 1].assistant
    ensures Conversed(c, system, turns) ==
            Conversed(c, system, turns[..k])
            + [Assistant(OrNone(FlatMap(turns[k].parts, TextOf)), FlatMap(turns[k].parts, CallsOf(c)))]
            + FlatMap(turns[k + 1].parts, AnswerOf) + after
    ensures after == Spoken(FlatMap(turns[k + 1].parts, PiecesOf)) + FlatMap(turns[k + 2..], TurnOf(c))
  {
    hide *;
    ConversedIs(c, system, turns);
    ConversedIs(c, system, turns[..k]);
    TurnIs(c, turns[k]);
    TurnIs(c, turns[k + 1]);
    FlatMapSplit(turns, k + 1, TurnOf(c));
    FlatMapSnoc(turns[..k], turns[k], TurnOf(c));
    assert turns[..k] + [turns[k]] == turns[..k + 1];
    after := Spoken(FlatMap(turns[k + 1].parts, PiecesOf)) + FlatMap(turns[k + 2..], TurnOf(c));
    Regrouped(Prompted(system), FlatMap(turns[..k], TurnOf(c)), TurnOf(c)(turns[k]),
              FlatMap(turns[k + 1].parts, AnswerOf), Spoken(FlatMap(turns[k + 1].parts, PiecesOf)),
              FlatMap(turns[k + 2..], TurnOf(c)));
  }

  lemma ConversedIs<J>(c: Json<J>, system: Prompt<J>, turns: seq<Turn<J>>)
    ensures Conversed(c, system, turns) == Prompted(system) + FlatMap(turns, TurnOf(c))
  {
    hide Prompted, FlatMap, TurnOf;
  }

  lemma TurnIs<J>(c: Json<J>, t: Turn<J>)
    ensures TurnOf(c)(t) == if t.assistant
                            then [Assistant(OrNone(FlatMap(t.parts, TextOf)), FlatMap(t.parts, CallsOf(c)))]
                            else FlatMap(t.parts, AnswerOf) + Spoken(FlatMap(t.parts, PiecesOf))
  {
    hide FlatMap, OrNone, Spoken;
  }

  lemma Regrouped(a: seq<Sent>, b: seq<Sent>, one: seq<Sent>, answers: seq<Sent>, spoken: seq<Sent>, rest: seq<Sent>)
    ensures a + (b + one + (answers + spoken) + rest) == (a + b) + one + answers + (spoken + rest)
  {
  }

  /** What a turn's parts become, one by one: a tool result under its call's id, marked when it is an error; an image as
      its address or as data, of a type that is png when none is given; and a document only if it is plain text. */
  lemma PartsSay<J>(p: Part<J>)
    ensures p.Result? ==>
              && |AnswerOf(p)| == 1 && AnswerOf(p)[0].Answer? && AnswerOf(p)[0].toolCallId == p.toolUseId
              && (p.content.Whole? && !p.isError ==> AnswerOf(p)[0].text == p.content.text)
              && (p.content.Whole? && p.isError ==> AnswerOf(p)[0].text == "[error] " + p.content.text)
              && (p.content.Pieces? ==>
                    AnswerOf(p)[0].text == (if p.isError then "[error] " else "") + Join(p.content.texts, "\n"))
    ensures !p.Result? ==> AnswerOf(p) == []
    ensures p.Image? && p.source.Url? ==> PiecesOf(p) == [ImagePiece(p.source.url)]
    ensures p.Image? && p.source.Base64? && p.source.mediaType != "" ==>
              PiecesOf(p) == [ImagePiece("data:" + p.source.mediaType + ";base64," + p.source.data)]
    ensures p.Image? && p.source.Base64? && p.source.mediaType == "" ==>
              PiecesOf(p) == [ImagePiece("data:" + "image/png" + ";base64," + p.source.data)]
    ensures p.Said? ==> PiecesOf(p) == [TextPiece(p.text)] && TextOf(p) == p.text
    ensures p.Document? ==> PiecesOf(p) == if p.plain.Some? then [TextPiece(p.plain.value)] else []
    ensures p.Use? || p.Result? || p.Other? ==> PiecesOf(p) == []
    ensures !p.Said? ==> TextOf(p) == ""
  {
  }

  lemma JoinedLast(texts: seq<string>, sep: string)
    requires texts != []
    ensures |texts| == 1 ==> Join(texts, sep) == texts[0]
    ensures |texts| > 1 ==>
              Join(texts, sep) == Join(texts[..|texts| - 1], sep) + sep + texts[|texts| - 1]
  {
  }

  lemma TextsAppended(x: string, sep: string, y: string, z: string)
    ensures x + sep + y + sep + z == x + sep + (y + sep + z)
  {
  }

  /** Texts are joined with the separator between them, and nowhere else. */
  lemma {:induction false} JoinedBetween(a: seq<string>, b: seq<string>, sep: string)
    requires a != [] && b != []
    ensures Join(a + b, sep) == Join(a, sep) + sep + Join(b, sep)
    ensures |b| == 1 ==> Join(b, sep) == b[0]
  {
    hide Join;
    var init, last := b[..|b| - 1], b[|b| - 1];
    assert (a + b)[..|a + b| - 1] == a + init && (a + b)[|a + b| - 1] == last;
    JoinedLast(a + b, sep);
    JoinedLast(b, sep);
    if |b| > 1 {
      JoinedBetween(a, init, sep);
      TextsAppended(Join(a, sep), sep, Join(init, sep), last);
    } else {
      assert a + init == a;
    }
  }

  /** A user turn is told in one message after its tool results: a string, its texts two lines apart, when it is
      all text; else its parts. */
  lemma UserSays(pieces: seq<Piece>)
    ensures pieces == [] ==> Spoken(pieces) == []
    ensures pieces != [] && (forall k :: 0 <= k < |pieces| ==> pieces[k].TextPiece?) ==>
              && |Spoken(pieces)| == 1 && Spoken(pieces)[0].UserText?
              && (|pieces| == 1 ==> Spoken(pieces)[0].text == pieces[0].text)
              && (|pieces| == 2 ==> Spoken(pieces)[0].text == pieces[0].text + "\n\n" + pieces[1].text)
    ensures (exists k :: 0 <= k < |pieces| && pieces[k].ImagePiece?) ==> Spoken(pieces) == [UserPieces(pieces)]
  {
    if |pieces| == 2 && OnlyText(pieces) {
      assert Texts(pieces) == [pieces[0].text] + [pieces[1].text];
      JoinedBetween([pieces[0].text], [pieces[1].text], "\n\n");
    }
  }

  /** A call is sent with its id, or a new one, and its input printed; an input that is missing or empty as {}. */
  lemma CallSays<J>(c: Json<J>, id: ToolId, name: string, input: Option<J>)
    ensures var call := CallFor(c, id, name, input);
            && call.name == name && (id != Given("") ==> call.id == id) && (id == Given("") ==> call.id == Minted)
            && (input.Some? && c.truthy(input.value) ==> call.arguments == c.printed(input.value))
            && (input == None ==> call.arguments == c.printed(c.empty))
            && (input.Some? && !c.truthy(input.value) ==> call.arguments == c.printed(c.empty))
  {
  }

  /** What opens a conversation, and what an assistant's turn sends: no message for an empty prompt, a string as
      it is, a list's texts two lines apart; and no content where no text was said. */
  lemma PromptSays<J>(c: Json<J>, text: string, parts: seq<Part<J>>, t: Turn<J>)
    ensures Conversed(c, Plain(text), []) == if text == "" then [] else [System(text)]
    ensures parts == [] ==> Conversed(c, Blocks(parts), []) == []
    ensures |parts| == 2 && parts[0].Said? && parts[1].Said? ==>
              Conversed(c, Blocks(parts), []) == [System(parts[0].text + "\n\n" + parts[1].text)]
    ensures parts != [] && (forall k :: 0 <= k < |parts| ==> !parts[k].Said?) ==>
              Conversed(c, Blocks(parts), []) == [System("")]
    ensures t.assistant && t.parts == [] ==> TurnOf(c)(t) == [Assistant(None, [])]
    ensures t.assistant && |t.parts| == 1 && t.parts[0].Said? && t.parts[0].text != "" ==>
              TurnOf(c)(t) == [Assistant(Some(t.parts[0].text), [])]
  {
    ConversedIs(c, Plain(text), []);
    ConversedIs(c, Blocks(parts), []);
    if |parts| == 2 && parts[0].Said? && parts[1].Said? {
      assert parts == [parts[0]] + [parts[1]];
      FlatMapSnoc([parts[0]], parts[1], SaidText);
      FlatMapOne(parts[0], SaidText);
      JoinedBetween([parts[0].text], [parts[1].text], "\n\n");
    }
    if forall k :: 0 <= k < |parts| ==> !parts[k].Said? {
      FlatMapNothing(parts, SaidText);
    }
    if |t.parts| == 1 {
      assert t.parts == [t.parts[0]];
      FlatMapOne(t.parts[0], TextOf);
      FlatMapOne(t.parts[0], CallsOf(c));
    }
  }

  function AnswersIn(m: Sent): seq<Sent> { if m.Answer? then [m] else [] }

  /** The answers a turn gives: an assistant's own blocks give none. */
  function TurnAnswers<J>(t: Turn<J>): seq<Sent> { if t.assistant then [] else FlatMap(t.parts, AnswerOf) }

  /** Every tool result of a user turn is sent, once, in order. */
  lemma {:induction false} AnswersKept<J>(c: Json<J>, system: Prompt<J>, turns: seq<Turn<J>>)
    ensures FlatMap(Conversed(c, system, turns), AnswersIn) == FlatMap(turns, TurnAnswers)
  {
    hide FlatMap;
    if turns == [] {
      NoTurns(c, system);
      FlatMapNothing(Conversed(c, system, []), AnswersIn);
      FlatMapNothing(turns, TurnAnswers);
    } else {
      var init, t := turns[..|turns| - 1], turns[|turns| - 1];
      AnswersKept(c, system, init);
      assert turns == init + [t];
      FlatMapSnoc(init, t, TurnOf(c));
      FlatMapSnoc(init, t, TurnAnswers);
      var one := TurnOf(c)(t);
      assert Conversed(c, system, turns) == Conversed(c, system, init) + one;
      FlatMapAppend(Conversed(c, system, init), one, AnswersIn);
      TurnAnswersKept(c, t);
    }
  }

  lemma NoTurns<J>(c: Json<J>, system: Prompt<J>)
    ensures forall k :: 0 <= k < |Conversed(c, system, [])| ==> AnswersIn(Conversed(c, system, [])[k]) == []
  {
  }

  lemma TurnAnswersKept<J>(c: Json<J>, t: Turn<J>)
    ensures FlatMap(TurnOf(c)(t), AnswersIn) == TurnAnswers(t)
  {
    hide FlatMap;
    if t.assistant {
      FlatMapNothing(TurnOf(c)(t), AnswersIn);
    } else {
      var answers, spoken := FlatMap(t.parts, AnswerOf), Spoken(FlatMap(t.parts, PiecesOf));
      FlatMapAppend(answers, spoken, AnswersIn);
      FlatMapNothing(spoken, AnswersIn);
      AnswersAlone(t.parts);
    }
  }

  lemma {:induction false} AnswersAlone<J>(parts: seq<Part<J>>)
    ensures FlatMap(FlatMap(parts, AnswerOf), AnswersIn) == FlatMap(parts, AnswerOf)
  {
    if parts != [] {
      var init, p := parts[..|parts| - 1], parts[|parts| - 1];
      AnswersAlone(init);
      FlatMapAppend(FlatMap(init, AnswerOf), AnswerOf(p), AnswersIn);
      if p.Result? {
        FlatMapOne(AnswerOf(p)[0], AnswersIn);
      }
    }
  }

  // --------------------------------------------------- a reply as history

  /** The JSON of a tool call's input as the gate sends it to the client. */
  function InputJson<J>(c: Json<J>, input: Input<J>): J {
    if input.Parsed? then input.json else c.raw(input.text)
  }

  /** The blocks of a message, sent back by a client as it got them. */
  function Back<J>(c: Json<J>): Block<J> -> seq<Part<J>> {
    (b: Block<J>) =>
      match b
      case ThinkingBlock(_) => [Other]
      case TextBlock(text) => [Said(text)]
      case ToolBlock(id, name, input) => [Use(id, name, Some(InputJson(c, input)))]
  }

  function HistoryTurn<J>(c: Json<J>, m: Message<J>): Turn<J> { Turn(true, FlatMap(m.content, Back(c))) }

  /** The call sent back for a call of the reply. */
  function Resent<J>(c: Json<J>, call: ToolCall): Call {
    CallFor(c, IdOf(call.id), call.name, Some(InputJson(c, DecodeInput(c.parse, call.arguments))))
  }

  function ResentAll<J>(c: Json<J>, calls: seq<ToolCall>): seq<Call> {
    seq(|calls|, k requires 0 <= k < |calls| => Resent(c, calls[k]))
  }

  /** A reply that comes back as history reads as it did: its content, and its calls in order. */
  lemma HistoryReadsBack<J>(c: Json<J>, reply: Reply, stops: seq<string>)
    ensures var msg := FirstChoice(reply).message;
            TurnOf(c)(HistoryTurn(c, MessageOf(c.parse, reply, stops)))
            == [Assistant(OrNone(msg.content), ResentAll(c, msg.toolCalls))]
  {
    hide *;
    var msg := FirstChoice(reply).message;
    var prose := ProseBlocks<J>(ReasoningOf(msg.reasoningContent, msg.reasoning), msg.content);
    var tools := ToolBlocks(c.parse, msg.toolCalls);
    ProseBack(c, ReasoningOf(msg.reasoningContent, msg.reasoning), msg.content);
    ToolsBack(c, msg.toolCalls);
    BackTogether(c, prose, tools);
    ContentIs(c.parse, reply, stops);
    HistoryIs(c, MessageOf(c.parse, reply, stops));
    NothingAdded(msg.content, ResentAll(c, msg.toolCalls));
  }

  lemma ContentIs<J>(parse: string -> Option<J>, reply: Reply, stops: seq<string>)
    ensures var msg := FirstChoice(reply).message;
            MessageOf(parse, reply, stops).content
            == ProseBlocks<J>(ReasoningOf(msg.reasoningContent, msg.reasoning), msg.content)
               + ToolBlocks(parse, msg.toolCalls)
  {
    hide ProseBlocks, ToolBlocks, FirstChoice, ReasoningOf, WithTools, StopReason, OrZero;
  }

  lemma HistoryIs<J>(c: Json<J>, m: Message<J>)
    ensures var parts := FlatMap(m.content, Back(c));
            TurnOf(c)(HistoryTurn(c, m)) == [Assistant(OrNone(FlatMap(parts, TextOf)), FlatMap(parts, CallsOf(c)))]
  {
    hide FlatMap, Back, OrNone, TextOf, CallsOf;
  }

  lemma NothingAdded(text: string, calls: seq<Call>)
    ensures text + "" == text && [] + calls == calls
  {
  }

  lemma BackTogether<J>(c: Json<J>, prose: seq<Block<J>>, tools: seq<Block<J>>)
    ensures var all, a, b := FlatMap(prose + tools, Back(c)), FlatMap(prose, Back(c)), FlatMap(tools, Back(c));
            && FlatMap(all, TextOf) == FlatMap(a, TextOf) + FlatMap(b, TextOf)
            && FlatMap(all, CallsOf(c)) == FlatMap(a, CallsOf(c)) + FlatMap(b, CallsOf(c))
  {
    hide *;
    FlatMapAppend(prose, tools, Back(c));
    FlatMapAppend(FlatMap(prose, Back(c)), FlatMap(tools, Back(c)), TextOf);
    FlatMapAppend(FlatMap(prose, Back(c)), FlatMap(tools, Back(c)), CallsOf(c));
  }

  lemma ProseBack<J>(c: Json<J>, thinking: string, text: string)
    ensures var a := FlatMap(ProseBlocks<J>(thinking, text), Back(c));
            FlatMap(a, TextOf) == text && FlatMap(a, CallsOf(c)) == []
  {
    var think: Block<J>, prose: Block<J> := ThinkingBlock(thinking), TextBlock(text);
    var other: Part<J>, said: Part<J> := Other, Said(text);
    var thought, spoken := if thinking != "" then [think] else [], if text != "" then [prose] else [];
    FlatMapOne(think, Back(c));
    FlatMapOne(prose, Back(c));
    FlatMapOne(other, TextOf);
    FlatMapOne(other, CallsOf(c));
    FlatMapOne(said, TextOf);
    FlatMapOne(said, CallsOf(c));
    assert "" + text == text;
    hide FlatMap;
    FlatMapAppend(thought, spoken, Back(c));
    var x, y := if thinking != "" then [other] else [], if text != "" then [said] else [];
    FlatMapAppend(x, y, TextOf);
    FlatMapAppend(x, y, CallsOf(c));
  }

  lemma CallBack<J>(c: Json<J>, call: ToolCall)
    ensures var input := DecodeInput(c.parse, call.arguments);
            var use := Use(IdOf(call.id), call.name, Some(InputJson(c, input)));
            && Back(c)(ToolBlock(IdOf(call.id), call.name, input)) == [use]
            && TextOf(use) == "" && CallsOf(c)(use) == [Resent(c, call)]
  {
    hide DecodeInput, InputJson, CallFor;
  }

  lemma {:induction false} ToolsBack<J>(c: Json<J>, calls: seq<ToolCall>)
    ensures var b := FlatMap(ToolBlocks(c.parse, calls), Back(c));
            FlatMap(b, TextOf) == "" && FlatMap(b, CallsOf(c)) == ResentAll(c, calls)
  {
    if calls == [] {
      NoCallsBack(c);
    } else {
      hide *;
      var init, call := calls[..|calls| - 1], calls[|calls| - 1];
      ToolsBack(c, init);
      CallBack(c, call);
      CallsSnoc(c, calls);
      var input := DecodeInput(c.parse, call.arguments);
      var last, use := ToolBlock(IdOf(call.id), call.name, input),
          Use(IdOf(call.id), call.name, Some(InputJson(c, input)));
      BackSnoc(c, ToolBlocks(c.parse, init), last, use);
    }
  }

  lemma NoCallsBack<J>(c: Json<J>)
    ensures var b := FlatMap(ToolBlocks(c.parse, []), Back(c));
            FlatMap(b, TextOf) == "" && FlatMap(b, CallsOf(c)) == ResentAll(c, [])
  {
    assert ToolBlocks(c.parse, []) == [] && ResentAll(c, []) == [];
  }

  lemma CallsSnoc<J>(c: Json<J>, calls: seq<ToolCall>)
    requires calls != []
    ensures var init, call := calls[..|calls| - 1], calls[|calls| - 1];
            && ToolBlocks(c.parse, calls)
               == ToolBlocks(c.parse, init)
                   + [ToolBlock(IdOf(call.id), call.name, DecodeInput(c.parse, call.arguments))]
            && ResentAll(c, calls) == ResentAll(c, init) + [Resent(c, call)]
  {
    hide DecodeInput, Resent;
  }

  lemma BackSnoc<J>(c: Json<J>, blocks: seq<Block<J>>, last: Block<J>, use: Part<J>)
    requires Back(c)(last) == [use]
    ensures var b, after := FlatMap(blocks, Back(c)), FlatMap(blocks + [last], Back(c));
            FlatMap(after, TextOf) == FlatMap(b, TextOf) + TextOf(use)
                && FlatMap(after, CallsOf(c)) == FlatMap(b, CallsOf(c)) + CallsOf(c)(use)
  {
    hide *;
    FlatMapSnoc(blocks, last, Back(c));
    FlatMapSnoc(FlatMap(blocks, Back(c)), use, TextOf);
    FlatMapSnoc(FlatMap(blocks, Back(c)), use, CallsOf(c));
  }

  /** The engine reads its own call back: same id (or the one minted), same name, and the same input exactly when
      its arguments parsed, to something true or {}; arguments that did not parse come back as an object that holds
      them. */
  lemma CallReadsBack<J(!new)>(c: Json<J>, call: ToolCall)
    requires Faithful(c)
    ensures var back, input := Resent(c, call), DecodeInput(c.parse, call.arguments);
            && back.id == IdOf(call.id) && back.name == call.name
            && (DecodeInput(c.parse, back.arguments) == input
                <==> input.Parsed? && (c.truthy(input.json) || input.json == c.empty))
            && (input.Raw? ==> DecodeInput(c.parse, back.arguments) == Parsed(c.raw(call.arguments)))
  {
    var input := DecodeInput(c.parse, call.arguments);
    var j := InputJson(c, input);
    var sent := if c.truthy(j) then j else c.empty;
    assert Resent(c, call).arguments == c.printed(sent);
    assert c.parse(c.printed(sent)) == Some(sent);
  }
}
