/**
 Whole chat-completion responses translated to Anthropic messages
 (`translateToAnthropic`, routes/messages/non-stream-translation.ts).
 */
module ChatResponses {
  import opened Common
  import opened JsonValues
  import opened StreamEvents
  import opened StreamTranslation
  import opened Aggregation

  /** Content blocks of an Anthropic message, with those of the emulated web search. */
  datatype ContentBlock =
    | TextContent(text: string)
    | ToolUseContent(id: string, name: string, input: Json)
    | SearchContent(id: string, query: string)
    | SearchResultContent(toolUseId: string, hits: seq<Hit>)

  /** The content of a chat message: null, a string, or parts of which only texts are taken. */
  datatype ChatContent = NullContent | PlainContent(text: string) | PartsContent(parts: seq<ChatPart>)

  datatype ChatPart = ChatText(text: string) | ChatImage(url: string)

  datatype ChatChoice = ChatChoice(content: ChatContent, toolCalls: seq<Call>, finish: FinishReason)

  datatype ChatResponse = ChatResponse(id: string, model: string, choices: seq<ChatChoice>, usage: Option<Usage>)

  datatype AnthropicMessage = AnthropicMessage(
    id: string, model: string, content: seq<ContentBlock>, stopReason: Option<StopReason>, usage: WireUsage)

  /** `JSON.parse`; None when it throws. */
  type InputParser = string -> Option<Json>

  /** Parsed tool arguments, {} when parsing fails or gives no object. */
  function ToolInput(parse: InputParser, arguments: string): (input: Json)
    ensures input.Obj?
    ensures input != Obj([]) ==> parse(arguments) == Some(input)
  {
    match parse(arguments)
    case Some(Obj(fields)) => Obj(fields)
    case _ => Obj([])
  }

  function TextBlocks(content: ChatContent): seq<ContentBlock> {
    match content
    case NullContent => []
    case PlainContent(text) => [TextContent(text)]
    case PartsContent(parts) => PartTexts(parts)
  }

  function PartTexts(parts: seq<ChatPart>): seq<ContentBlock> {
    if parts == [] then []
    else if parts[0].ChatText? then [TextContent(parts[0].text)] + PartTexts(parts[1..])
    else PartTexts(parts[1..])
  }

  function ToolUseBlocks(calls: seq<Call>, parse: InputParser): seq<ContentBlock> {
    seq(|calls|, i requires 0 <= i < |calls| => ToolUseContent(calls[i].id, calls[i].name, ToolInput(parse, calls[i].arguments)))
  }

  function AllText(choices: seq<ChatChoice>): seq<ContentBlock> {
    if choices == [] then [] else TextBlocks(choices[0].content) + AllText(choices[1..])
  }

  function AllToolUses(choices: seq<ChatChoice>, parse: InputParser): seq<ContentBlock> {
    if choices == [] then [] else ToolUseBlocks(choices[0].toolCalls, parse) + AllToolUses(choices[1..], parse)
  }

  /** The reason of the choices: tool calls win, then the first that is not a plain stop. */
  function CombinedFinish(choices: seq<ChatChoice>): Option<FinishReason> {
    if choices == [] then None
    else if exists c <- choices :: c.finish.ToolCalls? then Some(ToolCalls)
    else Some(FirstNotStop(choices))
  }

  function FirstNotStop(choices: seq<ChatChoice>): FinishReason {
    if choices == [] then Stop
    else if !choices[0].finish.Stop? then choices[0].finish
    else FirstNotStop(choices[1..])
  }

  function MessageUsage(usage: Option<Usage>): WireUsage {
    InputUsage(usage, match usage case None => 0 case Some(u) => u.completionTokens)
  }

  function ToAnthropic(r: ChatResponse, clientModel: Option<string>, parse: InputParser): AnthropicMessage {
    var finish := CombinedFinish(r.choices);
    AnthropicMessage(r.id, clientModel.GetOr(r.model), AllText(r.choices) + AllToolUses(r.choices, parse),
                     match finish case None => None case Some(f) => Some(MapStopReason(f)), MessageUsage(r.usage))
  }

  /** Extending by one choice, the way the loop does it. */
  lemma {:induction false} FirstNotStopExtends(choices: seq<ChatChoice>, c: ChatChoice)
    ensures FirstNotStop(choices + [c])
            == if FirstNotStop(choices).Stop? then c.finish else FirstNotStop(choices)
  {
    if choices == [] {
      assert [] + [c] == [c];
      assert [c][1..] == [];
    } else {
      assert (choices + [c])[0] == choices[0] && (choices + [c])[1..] == choices[1..] + [c];
      FirstNotStopExtends(choices[1..], c);
    }
  }

  lemma CombinedFinishExtends(choices: seq<ChatChoice>, c: ChatChoice)
    requires choices != []
    ensures var before := CombinedFinish(choices).value;
            CombinedFinish(choices + [c])
            == Some(if c.finish.ToolCalls? || before.Stop? then c.finish else before)
  {
    FirstNotStopExtends(choices, c);
    NoToolCallsFirst(choices);
    assert c in choices + [c];
    assert forall x :: x in choices + [c] <==> x in choices || x == c;
  }

  lemma {:induction false} NoToolCallsFirst(choices: seq<ChatChoice>)
    ensures FirstNotStop(choices).ToolCalls? ==> exists c <- choices :: c.finish.ToolCalls?
  {
    if choices != [] {
      NoToolCallsFirst(choices[1..]);
      assert choices[0] in choices;
    }
  }

  lemma {:induction false} AllTextConcat(a: seq<ChatChoice>, b: seq<ChatChoice>)
    ensures AllText(a + b) == AllText(a) + AllText(b)
  {
    if a == [] {
      assert a + b == b;
    } else {
      AllTextConcat(a[1..], b);
      HeadTail(a, b);
      Associative(TextBlocks(a[0].content), AllText(a[1..]), AllText(b));
    }
  }

  lemma {:induction false} AllToolUsesConcat(a: seq<ChatChoice>, b: seq<ChatChoice>, parse: InputParser)
    ensures AllToolUses(a + b, parse) == AllToolUses(a, parse) + AllToolUses(b, parse)
  {
    if a == [] {
      assert a + b == b;
    } else {
      AllToolUsesConcat(a[1..], b, parse);
      HeadTail(a, b);
      Associative(ToolUseBlocks(a[0].toolCalls, parse), AllToolUses(a[1..], parse), AllToolUses(b, parse));
    }
  }

  lemma CombinedFinishOfOne(c: ChatChoice)
    ensures CombinedFinish([c]) == Some(c.finish)
  {
    var one := [c];
    assert one[0] == c && one[1..] == [];
    assert FirstNotStop(one) == c.finish;
    assert (exists x <- one :: x.finish.ToolCalls?) <==> c.finish.ToolCalls?;
  }

  lemma BlocksOfOne(c: ChatChoice, parse: InputParser)
    ensures AllText([c]) == TextBlocks(c.content)
    ensures AllToolUses([c], parse) == ToolUseBlocks(c.toolCalls, parse)
  {
    assert [c][1..] == [];
  }

  method TranslateToAnthropic(response: ChatResponse, clientModel: Option<string>, parse: InputParser)
    returns (m: AnthropicMessage)
    ensures m == ToAnthropic(response, clientModel, parse)
  {
    var choices := response.choices;
    var textBlocks, toolUseBlocks := [], [];
    var stopReason := if choices == [] then None else Some(choices[0].finish);
    if choices != [] {
      CombinedFinishOfOne(choices[0]);
      assert choices[..1] == [choices[0]];
    }
    for i := 0 to |choices|
      invariant textBlocks == AllText(choices[..i]) && toolUseBlocks == AllToolUses(choices[..i], parse)
      invariant choices == [] ==> stopReason == None
      invariant choices != [] ==> stopReason == CombinedFinish(if i == 0 then choices[..1] else choices[..i])
    {
      assert choices[..i + 1] == choices[..i] + [choices[i]];
      AllTextConcat(choices[..i], [choices[i]]);
      AllToolUsesConcat(choices[..i], [choices[i]], parse);
      BlocksOfOne(choices[i], parse);
      textBlocks := textBlocks + TextBlocks(choices[i].content);
      toolUseBlocks := toolUseBlocks + ToolUseBlocks(choices[i].toolCalls, parse);
      if i > 0 {
        CombinedFinishExtends(choices[..i], choices[i]);
      }
      if choices[i].finish.ToolCalls? || stopReason == Some(Stop) {
        stopReason := Some(choices[i].finish);
      }
    }
    assert choices[..|choices|] == choices;
    m := AnthropicMessage(response.id, clientModel.GetOr(response.model), textBlocks + toolUseBlocks,
                          match stopReason case None => None case Some(f) => Some(MapStopReason(f)),
                          MessageUsage(response.usage));
  }

  /** The answer is a tool use exactly when some choice ended with tool calls. */
  lemma ToolUseExactly(r: ChatResponse, clientModel: Option<string>, parse: InputParser)
    ensures ToAnthropic(r, clientModel, parse).stopReason == Some(ToolUse) <==> exists c <- r.choices :: c.finish.ToolCalls?
  {
    NoToolCallsFirst(r.choices);
  }

  /** An aggregated stream is a response with one choice. */
  function AsResponse(reply: Reply): ChatResponse {
    ChatResponse(reply.id, reply.model, [ChatChoice(AsContent(reply.content), reply.toolCalls, reply.finish)], reply.usage)
  }

  function AsContent(content: Option<string>): ChatContent {
    match content case None => NullContent case Some(text) => PlainContent(text)
  }

  // ----- what an answer carries, by position -----

  predicate IsChatText(p: ChatPart) { p.ChatText? }

  /** The text blocks of one choice: its string, or one block for each text part in order. */
  ghost predicate CarriesText(content: ChatContent, blocks: seq<ContentBlock>) {
    match content
    case NullContent => blocks == []
    case PlainContent(text) => blocks == [TextContent(text)]
    case PartsContent(parts) => Filtered(parts, IsChatText, IsBlockOf, blocks)
  }

  predicate IsBlockOf(p: ChatPart, b: ContentBlock) { p.ChatText? && b == TextContent(p.text) }

  /** A tool use with the call's id and name and the object its arguments stand for. */
  predicate CarriesCall(parse: InputParser, call: Call, block: ContentBlock) {
    && block.ToolUseContent? && block.id == call.id && block.name == call.name
    && IsInput(parse, call.arguments, block.input)
  }

  /** The object the arguments parse to, {} when they parse to none. */
  predicate IsInput(parse: InputParser, arguments: string, input: Json) {
    var parsed := parse(arguments);
    if parsed.Some? && parsed.value.Obj? then input == parsed.value else input == Obj([])
  }

  predicate CarriesCalls(parse: InputParser, calls: seq<Call>, blocks: seq<ContentBlock>) {
    |blocks| == |calls| && forall i :: 0 <= i < |calls| ==> CarriesCall(parse, calls[i], blocks[i])
  }

  lemma {:induction false} PartTextsFilter(parts: seq<ChatPart>)
    ensures Filtered(parts, IsChatText, IsBlockOf, PartTexts(parts))
  {
    if parts == [] {
      FilteredNone(IsChatText, IsBlockOf);
    } else {
      PartTextsFilter(parts[1..]);
      var head := if parts[0].ChatText? then [TextContent(parts[0].text)] else [];
      FilteredMore(parts, IsChatText, IsBlockOf, head, PartTexts(parts[1..]));
      assert PartTexts(parts) == head + PartTexts(parts[1..]);
    }
  }

  lemma TextBlocksCarry(content: ChatContent)
    ensures CarriesText(content, TextBlocks(content))
  {
    if content.PartsContent? { PartTextsFilter(content.parts); }
  }

  lemma ToolUseBlocksCarry(calls: seq<Call>, parse: InputParser)
    ensures CarriesCalls(parse, calls, ToolUseBlocks(calls, parse))
  {
  }

  ghost predicate CarriesChoices(choices: seq<ChatChoice>, parse: InputParser, texts: seq<seq<ContentBlock>>, uses: seq<seq<ContentBlock>>) {
    && |texts| == |uses| == |choices|
    && (forall c :: 0 <= c < |choices| ==> CarriesText(choices[c].content, texts[c]))
    && (forall c :: 0 <= c < |choices| ==> CarriesCalls(parse, choices[c].toolCalls, uses[c]))
  }

  lemma {:induction false} ChoicesCarried(choices: seq<ChatChoice>, parse: InputParser)
    returns (texts: seq<seq<ContentBlock>>, uses: seq<seq<ContentBlock>>)
    ensures AllText(choices) == Flat(texts) && AllToolUses(choices, parse) == Flat(uses)
    ensures CarriesChoices(choices, parse, texts, uses)
  {
    if choices == [] {
      texts, uses := [], [];
    } else {
      var c := choices[0];
      var moreTexts, moreUses := ChoicesCarried(choices[1..], parse);
      texts, uses := [TextBlocks(c.content)] + moreTexts, [ToolUseBlocks(c.toolCalls, parse)] + moreUses;
      TextBlocksCarry(c.content);
      ToolUseBlocksCarry(c.toolCalls, parse);
      FlatMore(TextBlocks(c.content), moreTexts);
      FlatMore(ToolUseBlocks(c.toolCalls, parse), moreUses);
    }
  }

  /** An answer carries the texts of all choices, then their calls, in order, under the client's model name. */
  lemma AnswerCarriesChoices(r: ChatResponse, clientModel: Option<string>, parse: InputParser)
    returns (texts: seq<seq<ContentBlock>>, uses: seq<seq<ContentBlock>>)
    ensures var m := ToAnthropic(r, clientModel, parse);
            && m.content == Flat(texts) + Flat(uses) && CarriesChoices(r.choices, parse, texts, uses)
            && m.id == r.id && m.model == (if clientModel.Some? then clientModel.value else r.model)
  {
    texts, uses := ChoicesCarried(r.choices, parse);
  }

  /** The stop reason: tool use before everything else, otherwise that of the first choice that did not simply stop. */
  lemma {:induction false} StopReasonExactly(r: ChatResponse, clientModel: Option<string>, parse: InputParser)
    ensures var reason := ToAnthropic(r, clientModel, parse).stopReason;
            && (reason == None <==> r.choices == [])
            && (reason == Some(ToolUse) <==> exists c <- r.choices :: c.finish.ToolCalls?)
            && (reason == Some(EndTurn) <==> r.choices != [] && forall c <- r.choices :: c.finish.Stop?)
            && (reason == Some(MaxTokens) ==> exists i :: 0 <= i < |r.choices| && r.choices[i].finish.Length? && StopsBefore(r.choices, i))
            && (reason == Some(Refusal) ==> exists i :: 0 <= i < |r.choices| && r.choices[i].finish.ContentFilter? && StopsBefore(r.choices, i))
  {
    NoToolCallsFirst(r.choices);
    if r.choices != [] { var i := FirstNotStopAt(r.choices); }
  }

  predicate StopsBefore(choices: seq<ChatChoice>, i: nat) {
    forall j :: 0 <= j < i && j < |choices| ==> choices[j].finish.Stop?
  }

  lemma {:induction false} FirstNotStopAt(choices: seq<ChatChoice>) returns (i: nat)
    ensures i <= |choices| && StopsBefore(choices, i)
    ensures i < |choices| ==> !choices[i].finish.Stop? && FirstNotStop(choices) == choices[i].finish
    ensures i == |choices| ==> FirstNotStop(choices) == Stop && forall c <- choices :: c.finish.Stop?
  {
    i := 0;
    if choices != [] && choices[0].finish.Stop? {
      i := FirstNotStopAt(choices[1..]);
      assert forall j :: 0 < j < |choices| ==> choices[j] == choices[1..][j - 1];
      i := i + 1;
    }
  }
}
