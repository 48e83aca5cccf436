/** The two wire formats the gate translates between: an engine's chat
    completions (whole replies and stream chunks) and Anthropic's Messages
    (whole messages and stream events). A missing or null string is "". */
module Messages {
  import opened Prelude

  // ------------------------------------------------ chat completions (in) --

  /** The engine's own stop_reason: none, a token id, or the stop string that matched. */
  datatype Matched = Unmatched | TokenId(id: int) | StopText(text: string)

  datatype Usage = Usage(promptTokens: Option<int>, completionTokens: Option<int>)

  datatype ToolDelta = ToolDelta(index: Option<int>, id: string, name: string, arguments: string)

  datatype Delta = Delta(reasoningContent: string, reasoning: string, content: string,
                         toolCalls: seq<ToolDelta>)

  datatype Choice = Choice(delta: Delta, finish: string, matched: Matched)

  /** usage is Some only for a non-empty usage object. */
  datatype Chunk = Chunk(usage: Option<Usage>, choices: seq<Choice>)

  datatype ToolCall = ToolCall(id: string, name: string, arguments: string)

  datatype ChatMessage = ChatMessage(reasoningContent: string, reasoning: string, content: string,
                                     toolCalls: seq<ToolCall>)

  datatype ReplyChoice = ReplyChoice(message: ChatMessage, finish: string, matched: Matched)

  datatype Reply = Reply(choices: seq<ReplyChoice>, usage: Option<Usage>)

  // ------------------------------------------------------- Messages (out) --

  datatype Kind = Thinking | Text | Tool

  /** A tool call's id: the engine's, or one minted from a fresh UUID (its value is not modelled). */
  datatype ToolId = Given(id: string) | Minted

  /** stop_reason and stop_sequence together. */
  datatype Stop = EndTurn | MaxTokens | UsedTool | StopSequence(sequence: string)

  datatype Event =
    | MessageStart
    | BlockStart(index: int, kind: Kind, id: ToolId, name: string)
    | ThinkingDelta(index: int, text: string)
    | SignatureDelta(index: int)
    | TextDelta(index: int, text: string)
    | JsonDelta(index: int, text: string)
    | BlockStop(index: int)
    | MessageDelta(stop: Stop, inputTokens: int, outputTokens: int)
    | MessageStop
  {
    predicate IsDelta() {
      ThinkingDelta? || SignatureDelta? || TextDelta? || JsonDelta?
    }

    /** The kind of block a delta belongs in. */
    function DeltaKind(): Kind
      requires IsDelta()
    {
      if TextDelta? then Text else if JsonDelta? then Tool else Thinking
    }

    /** The content a delta carries (a signature carries none). */
    function Payload(): string
      requires IsDelta()
    {
      if SignatureDelta? then "" else text
    }
  }

  /** A tool call's input: the arguments parsed as JSON, or kept raw when they do not parse. */
  datatype Input<J> = Parsed(json: J) | Raw(text: string)

  datatype Block<J> =
    | ThinkingBlock(thinking: string)
    | TextBlock(text: string)
    | ToolBlock(id: ToolId, name: string, input: Input<J>)

  datatype Message<J> = Message(content: seq<Block<J>>, stop: Stop, inputTokens: int, outputTokens: int)

  function OrZero(n: Option<int>): int {
    if n.Some? then n.value else 0
  }

  function IdOf(id: string): ToolId {
    if id == "" then Minted else Given(id)
  }

  function ReasoningOf(reasoningContent: string, reasoning: string): string {
    if reasoningContent != "" then reasoningContent else reasoning
  }

  function StopReason(finish: string, matched: Matched, stops: seq<string>): Stop {
    if finish == "length" then MaxTokens
    else if finish == "tool_calls" then UsedTool
    else if matched.StopText? && matched.text in stops then StopSequence(matched.text)
    else EndTurn
  }

  /** What a turn with tool calls ends with: some engines finish it with "stop". */
  function WithTools(stop: Stop, usedTools: bool): Stop {
    if stop == EndTurn && usedTools then UsedTool else stop
  }

  /** json.loads(arguments or "{}"), or the text itself when it does not parse. */
  function DecodeInput<J>(parse: string -> Option<J>, arguments: string): Input<J> {
    var parsed := parse(if arguments == "" then "{}" else arguments);
    if parsed.Some? then Parsed(parsed.value) else Raw(arguments)
  }

  // ----------------------------------------------------------- one shot --

  function ToolBlocks<J>(parse: string -> Option<J>, calls: seq<ToolCall>): seq<Block<J>> {
    seq(|calls|, k requires 0 <= k < |calls| =>
      ToolBlock(IdOf(calls[k].id), calls[k].name, DecodeInput(parse, calls[k].arguments)))
  }

  function ProseBlocks<J>(thinking: string, text: string): seq<Block<J>> {
    (if thinking != "" then [ThinkingBlock(thinking)] else []) + (if text != "" then [TextBlock(text)] else [])
  }

  /** The choice a reply is read from: the first, or an empty one. */
  function FirstChoice(reply: Reply): ReplyChoice {
    if reply.choices == [] then ReplyChoice(ChatMessage("", "", "", []), "", Unmatched) else reply.choices[0]
  }

  function MessageOf<J>(parse: string -> Option<J>, reply: Reply, stops: seq<string>): Message<J> {
    var choice := FirstChoice(reply);
    var usage := if reply.usage.Some? then reply.usage.value else Usage(None, None);
    Message(ProseBlocks(ReasoningOf(choice.message.reasoningContent, choice.message.reasoning), choice.message.content)
            + ToolBlocks(parse, choice.message.toolCalls),
            WithTools(StopReason(choice.finish, choice.matched, stops), choice.message.toolCalls != []),
            OrZero(usage.promptTokens), OrZero(usage.completionTokens))
  }

  /** from_openai: the blocks are appended one at a time. */
  method FromOpenAi<J>(parse: string -> Option<J>, reply: Reply, stops: seq<string>) returns (message: Message<J>)
    ensures message == MessageOf(parse, reply, stops)
  {
    var choice := FirstChoice(reply);
    var msg := choice.message;
    var content: seq<Block<J>> := [];
    var thinking := ReasoningOf(msg.reasoningContent, msg.reasoning);
    if thinking != "" {
      content := content + [ThinkingBlock(thinking)];
    }
    if msg.content != "" {
      content := content + [TextBlock(msg.content)];
    }
    ghost var prose := content;
    assert prose == ProseBlocks(thinking, msg.content);
    var usedTools := false;
    for k := 0 to |msg.toolCalls|
      invariant content == prose + ToolBlocks(parse, msg.toolCalls)[..k]
      invariant usedTools <==> 0 < k
    {
      var call := msg.toolCalls[k];
      content := content + [ToolBlock(IdOf(call.id), call.name, DecodeInput(parse, call.arguments))];
      usedTools := true;
    }
    assert ToolBlocks(parse, msg.toolCalls)[..|msg.toolCalls|] == ToolBlocks(parse, msg.toolCalls);
    var usage := if reply.usage.Some? then reply.usage.value else Usage(None, None);
    message := Message(content, WithTools(StopReason(choice.finish, choice.matched, stops), usedTools),
                       OrZero(usage.promptTokens), OrZero(usage.completionTokens));
  }

  // ------------------------------------------------- what a message says --

  /** What a message ends with, told from what the engine sent: how it finished, what matched, and if tools were
      called. */
  predicate StopFits(stop: Stop, finish: string, matched: Matched, stops: seq<string>, tools: bool) {
    var asked := matched.StopText? && matched.text in stops;
    && (stop == MaxTokens <==> finish == "length")
    && (stop.StopSequence? <==> finish != "length" && finish != "tool_calls" && asked)
    && (stop.StopSequence? ==> matched == StopText(stop.sequence))
    && (stop == UsedTool <==> finish == "tool_calls" || (tools && finish != "length" && !asked))
    && (stop == EndTurn <==> !tools && finish != "length" && finish != "tool_calls" && !asked)
  }

  /** The stop reason of any reply; one without choices ends its turn. */
  lemma MessageStops<J>(parse: string -> Option<J>, reply: Reply, stops: seq<string>)
    ensures var stop := MessageOf(parse, reply, stops).stop;
            if reply.choices == [] then stop == EndTurn
            else
              var choice := reply.choices[0];
              StopFits(stop, choice.finish, choice.matched, stops, choice.message.toolCalls != [])
  {
    hide ToolBlocks, ProseBlocks;
  }

  /** The tokens a usage counts; what is missing counts 0. */
  predicate CountFits(usage: Option<Usage>, inputTokens: int, outputTokens: int) {
    && (usage.Some? && usage.value.promptTokens.Some? ==> inputTokens == usage.value.promptTokens.value)
    && (usage.Some? && usage.value.completionTokens.Some? ==> outputTokens == usage.value.completionTokens.value)
    && (usage == None || usage.value.promptTokens == None ==> inputTokens == 0)
    && (usage == None || usage.value.completionTokens == None ==> outputTokens == 0)
  }

  /** A block made for a tool call: its id, or a new one; its name; and its arguments read as JSON, none as {}, and
      kept as they are when they do not parse. */
  ghost predicate CallFits<J>(parse: string -> Option<J>, call: ToolCall, b: Block<J>) {
    && b.ToolBlock? && b.name == call.name
    && (call.id == "" <==> b.id == Minted) && (call.id != "" ==> b.id == Given(call.id))
    && (call.arguments == "" && parse("{}").Some? ==> b.input == Parsed(parse("{}").value))
    && (call.arguments != "" && parse(call.arguments).Some? ==> b.input == Parsed(parse(call.arguments).value))
    && (parse(if call.arguments == "" then "{}" else call.arguments) == None ==> b.input == Raw(call.arguments))
  }

  /** The message of any reply, block by block: reasoning, content, then its calls in order; nothing for what is
      empty. */
  lemma MessageReads<J>(parse: string -> Option<J>, reply: Reply, stops: seq<string>)
    ensures var m := MessageOf(parse, reply, stops);
            && CountFits(reply.usage, m.inputTokens, m.outputTokens)
            && if reply.choices == [] then m.content == []
               else
                 var msg := reply.choices[0].message;
                 var thought := msg.reasoningContent != "" || msg.reasoning != "";
                 var front := (if thought then 1 else 0) + (if msg.content != "" then 1 else 0);
                 && |m.content| == front + |msg.toolCalls|
                 && (msg.reasoningContent != "" ==> m.content[0] == ThinkingBlock(msg.reasoningContent))
                 && (msg.reasoningContent == "" && thought ==> m.content[0] == ThinkingBlock(msg.reasoning))
                 && (msg.content != "" ==> m.content[front - 1] == TextBlock(msg.content))
                 && forall k :: 0 <= k < |msg.toolCalls| ==> CallFits(parse, msg.toolCalls[k], m.content[front + k])
  {
    hide *;
    var msg := FirstChoice(reply).message;
    ContentReads(parse, reply, stops);
    FirstRead(reply);
    ProseReads<J>(msg.reasoningContent, msg.reasoning, msg.content);
    CallsRead(parse, msg.toolCalls);
  }

  lemma ContentReads<J>(parse: string -> Option<J>, reply: Reply, stops: seq<string>)
    ensures var m, msg := MessageOf(parse, reply, stops), FirstChoice(reply).message;
            && CountFits(reply.usage, m.inputTokens, m.outputTokens)
            && m.content == ProseBlocks<J>(ReasoningOf(msg.reasoningContent, msg.reasoning), msg.content)
                            + ToolBlocks(parse, msg.toolCalls)
  {
    hide StopReason, WithTools, FirstChoice, ProseBlocks, ToolBlocks, ReasoningOf;
  }

  lemma FirstRead(reply: Reply)
    ensures reply.choices == [] ==> FirstChoice(reply).message == ChatMessage("", "", "", [])
    ensures reply.choices != [] ==> FirstChoice(reply) == reply.choices[0]
  {
  }

  lemma ProseReads<J>(reasoningContent: string, reasoning: string, text: string)
    ensures var prose := ProseBlocks<J>(ReasoningOf(reasoningContent, reasoning), text);
            var thought := reasoningContent != "" || reasoning != "";
            && |prose| == (if thought then 1 else 0) + (if text != "" then 1 else 0)
            && (reasoningContent != "" ==> prose[0] == ThinkingBlock(reasoningContent))
            && (reasoningContent == "" && thought ==> prose[0] == ThinkingBlock(reasoning))
            && (text != "" ==> prose[|prose| - 1] == TextBlock(text))
  {
  }

  lemma CallsRead<J>(parse: string -> Option<J>, calls: seq<ToolCall>)
    ensures |ToolBlocks(parse, calls)| == |calls|
    ensures forall k :: 0 <= k < |calls| ==> CallFits(parse, calls[k], ToolBlocks(parse, calls)[k])
  {
  }
}
