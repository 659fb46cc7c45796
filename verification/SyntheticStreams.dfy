/**
 Event streams written from a finished message: `streamAssembledMessage`
 (routes/messages/web-search-handler.ts) and `writeResponsesAsAnthropicStream`
 (routes/messages/responses-bridge.ts). A client that replays them has the message.
 */
module SyntheticStreams {
  import opened Common
  import opened JsonValues
  import opened StreamEvents
  import opened StreamGrammar
  import opened ChatResponses
  import opened WebSearchLoop

  /** `JSON.stringify` and `JSON.parse`, which the proxy and the client share. */
  datatype Codec = Codec(stringify: Json -> string, parse: InputParser)

  /** The input a client takes from a JSON text; none is {}. */
  function ReadText(codec: Codec, text: string): Json {
    if text == "" then Obj([]) else (codec.parse)(text).GetOr(Obj([]))
  }

  /** Reading what was written gives the value back. */
  predicate RoundTrips(codec: Codec, j: Json) {
    ReadText(codec, (codec.stringify)(j)) == j
  }

  /** The content as it is once it was written and read: tool inputs are what their texts say. */
  function OnTheWire(codec: Codec, content: seq<ContentBlock>): seq<ContentBlock> {
    seq(|content|, i requires 0 <= i < |content| => WireBlock(codec, content[i]))
  }

  function WireBlock(codec: Codec, b: ContentBlock): ContentBlock {
    if b.ToolUseContent? then b.(input := ReadText(codec, (codec.stringify)(b.input))) else b
  }

  /** The content a client takes from a block it has read to the end. */
  function ContentOf(codec: Codec, b: Block): ContentBlock {
    match b
    case TextBlock(text) => TextContent(text)
    case ToolBlock(id, name, input, json) => ToolUseContent(id, name, if json == "" then input else ReadText(codec, json))
    case WholeBlock(TextHeader) => TextContent("")
    case WholeBlock(ToolHeader(id, name, input)) => ToolUseContent(id, name, input)
    case WholeBlock(SearchHeader(id, query)) => SearchContent(id, query)
    case WholeBlock(SearchResultHeader(id, hits)) => SearchResultContent(id, hits)
  }

  /** A client that has read a whole message with this content. */
  ghost predicate HasRead(codec: Codec, c: Client, content: seq<ContentBlock>) {
    && c.phase == Ended && !c.open
    && |c.blocks| == |content|
    && forall i :: 0 <= i < |content| ==> ContentOf(codec, c.blocks[i]) == content[i]
  }

  function TextEvents(index: nat, text: string): seq<Event> {
    [BlockStart(index, TextHeader), BlockDelta(index, TextDelta(text)), BlockStop(index)]
  }

  // ----- the assembled web-search message: blocks other than text are sent whole -----

  function WholeHeader(b: ContentBlock): Header {
    match b
    case TextContent(_) => TextHeader
    case ToolUseContent(id, name, input) => ToolHeader(id, name, input)
    case SearchContent(id, query) => SearchHeader(id, query)
    case SearchResultContent(id, hits) => SearchResultHeader(id, hits)
  }

  function WholeEvents(index: nat, b: ContentBlock): seq<Event> {
    if b.TextContent? then TextEvents(index, b.text) else [BlockStart(index, WholeHeader(b)), BlockStop(index)]
  }

  function AllWhole(content: seq<ContentBlock>, index: nat): seq<Event> {
    if content == [] then [] else WholeEvents(index, content[0]) + AllWhole(content[1..], index + 1)
  }

  function AssembledEvents(m: Assembled): seq<Event> {
    [MessageStart(m.id, m.model, WireUsage(Some(m.inputTokens), 0, None, Some(m.webSearchRequests)))]
    + AllWhole(m.content, 0)
    + [MessageDelta(m.stopReason, WireUsage(None, m.outputTokens, None, None)), MessageStop]
  }

  method WriteWholeBlocks(content: seq<ContentBlock>) returns (events: seq<Event>)
    ensures events == AllWhole(content, 0)
  {
    events := [];
    var index := 0;
    while index < |content|
      invariant index <= |content|
      invariant events + AllWhole(content[index..], index) == AllWhole(content, 0)
    {
      var block := content[index];
      assert content[index..][0] == block && content[index..][1..] == content[index + 1..];
      var more := [];
      if block.TextContent? {
        more := [BlockStart(index, TextHeader), BlockDelta(index, TextDelta(block.text))];
      } else {
        more := [BlockStart(index, WholeHeader(block))];
      }
      more := more + [BlockStop(index)];
      assert more == WholeEvents(index, block);
      Associative(events, more, AllWhole(content[index + 1..], index + 1));
      events := events + more;
      index := index + 1;
    }
  }

  method StreamAssembledMessage(m: Assembled) returns (events: seq<Event>)
    ensures events == AssembledEvents(m)
  {
    var blocks := WriteWholeBlocks(m.content);
    events := [MessageStart(m.id, m.model, WireUsage(Some(m.inputTokens), 0, None, Some(m.webSearchRequests)))] + blocks
              + [MessageDelta(m.stopReason, WireUsage(None, m.outputTokens, None, None)), MessageStop];
  }

  // ----- a Responses answer: tool inputs are streamed as one JSON delta -----

  datatype ItemKind = MessageItem | FunctionCallItem | ReasoningItem
  datatype OutputPart = OutputPart(isText: bool, text: string)
  datatype OutputItem = OutputItem(kind: ItemKind, parts: seq<OutputPart>, name: string, arguments: string, callId: string)
  datatype ResponsesAnswer = ResponsesAnswer(id: string, output: seq<OutputItem>, inputTokens: int, outputTokens: int)

  function PartBlocks(parts: seq<OutputPart>): seq<ContentBlock> {
    if parts == [] then []
    else if parts[0].isText && parts[0].text != "" then [TextContent(parts[0].text)] + PartBlocks(parts[1..])
    else PartBlocks(parts[1..])
  }

  /** An output item that becomes a tool use. */
  predicate IsCall(item: OutputItem) {
    item.kind.FunctionCallItem? && item.name != "" && item.callId != ""
  }

  /** What the proxy takes a call's arguments for. */
  function CallInput(parse: InputParser, item: OutputItem): Json {
    if item.arguments == "" then Obj([]) else ToolInput(parse, item.arguments)
  }

  function TranslateOutputItem(item: OutputItem, parse: InputParser): seq<ContentBlock> {
    if IsCall(item) then [ToolUseContent(item.callId, item.name, CallInput(parse, item))]
    else if !item.kind.MessageItem? then []
    else PartBlocks(item.parts)
  }

  function TranslateOutput(items: seq<OutputItem>, parse: InputParser): seq<ContentBlock> {
    if items == [] then [] else TranslateOutputItem(items[0], parse) + TranslateOutput(items[1..], parse)
  }

  function ResponsesToAnthropic(r: ResponsesAnswer, clientModel: string, parse: InputParser): AnthropicMessage {
    var content := TranslateOutput(r.output, parse);
    AnthropicMessage(r.id, clientModel, content,
                     Some(if exists b <- content :: b.ToolUseContent? then ToolUse else EndTurn),
                     WireUsage(Some(r.inputTokens), r.outputTokens, None, None))
  }

  function StreamedEvents(codec: Codec, index: nat, b: ContentBlock): seq<Event> {
    match b
    case TextContent(text) => TextEvents(index, text)
    case ToolUseContent(id, name, input) =>
      [BlockStart(index, ToolHeader(id, name, Obj([]))), BlockDelta(index, JsonDelta((codec.stringify)(input))), BlockStop(index)]
    case _ => []
  }

  function AllStreamed(codec: Codec, content: seq<ContentBlock>, index: nat): seq<Event> {
    if content == [] then [] else StreamedEvents(codec, index, content[0]) + AllStreamed(codec, content[1..], index + 1)
  }

  function ResponsesEvents(codec: Codec, r: ResponsesAnswer, clientModel: string): seq<Event> {
    var m := ResponsesToAnthropic(r, clientModel, codec.parse);
    [MessageStart(m.id, m.model, m.usage.(outputTokens := 0))]
    + AllStreamed(codec, m.content, 0)
    + [MessageDelta(m.stopReason, WireUsage(None, m.usage.outputTokens, None, None)), MessageStop]
  }

  method WriteStreamedBlocks(codec: Codec, content: seq<ContentBlock>) returns (events: seq<Event>)
    ensures events == AllStreamed(codec, content, 0)
  {
    events := [];
    for index := 0 to |content|
      invariant events + AllStreamed(codec, content[index..], index) == AllStreamed(codec, content, 0)
    {
      var block := content[index];
      assert content[index..][0] == block && content[index..][1..] == content[index + 1..];
      var more := [];
      if block.TextContent? {
        more := TextEvents(index, block.text);
      } else if block.ToolUseContent? {
        more := [BlockStart(index, ToolHeader(block.id, block.name, Obj([]))),
                 BlockDelta(index, JsonDelta((codec.stringify)(block.input))), BlockStop(index)];
      }
      assert more == StreamedEvents(codec, index, block);
      Associative(events, more, AllStreamed(codec, content[index + 1..], index + 1));
      events := events + more;
    }
  }

  method WriteResponsesAsAnthropicStream(codec: Codec, r: ResponsesAnswer, clientModel: string) returns (events: seq<Event>)
    ensures events == ResponsesEvents(codec, r, clientModel)
  {
    var m := ResponsesToAnthropic(r, clientModel, codec.parse);
    var blocks := WriteStreamedBlocks(codec, m.content);
    events := [MessageStart(m.id, m.model, m.usage.(outputTokens := 0))] + blocks
              + [MessageDelta(m.stopReason, WireUsage(None, m.usage.outputTokens, None, None)), MessageStop];
  }

  lemma {:induction false} OutputHasTwoKinds(items: seq<OutputItem>, parse: InputParser)
    ensures forall b <- TranslateOutput(items, parse) :: b.TextContent? || b.ToolUseContent?
  {
    if items != [] {
      PartsAreText(items[0].parts);
      OutputHasTwoKinds(items[1..], parse);
    }
  }

  lemma {:induction false} PartsAreText(parts: seq<OutputPart>)
    ensures forall b <- PartBlocks(parts) :: b.TextContent? && b.text != ""
  {
    if parts != [] { PartsAreText(parts[1..]); }
  }

  // ----- replaying one block -----

  lemma ReplayThree(strict: bool, c: Client, e: Event, f: Event, g: Event)
    requires Read(strict, c, e).Some? && Read(strict, Read(strict, c, e).value, f).Some?
    ensures Replay(strict, c, [e, f, g]) == Read(strict, Read(strict, Read(strict, c, e).value, f).value, g)
  {
    ReplayTwo(strict, c, e, f);
    ReplayConcat(strict, c, [e, f], [g]);
    ReplayOne(strict, Read(strict, Read(strict, c, e).value, f).value, g);
    assert [e, f] + [g] == [e, f, g];
  }

  lemma TextReplaysWhole(c: Client, text: string)
    requires c.phase == Body && !c.open
    ensures Replay(true, c, TextEvents(|c.blocks|, text)) == Some(c.(blocks := c.blocks + [TextBlock(text)]))
  {
    var i := |c.blocks|;
    assert (c.blocks + [TextBlock("")])[i := TextBlock("" + text)] == c.blocks + [TextBlock(text)] by {
      assert "" + text == text;
    }
    ReplayThree(true, c, BlockStart(i, TextHeader), BlockDelta(i, TextDelta(text)), BlockStop(i));
  }

  lemma WholeReplays(codec: Codec, c: Client, b: ContentBlock)
    requires c.phase == Body && !c.open
    ensures Replay(true, c, WholeEvents(|c.blocks|, b))
            == Some(c.(blocks := c.blocks + [if b.TextContent? then TextBlock(b.text) else Opened(WholeHeader(b))]))
    ensures ContentOf(codec, if b.TextContent? then TextBlock(b.text) else Opened(WholeHeader(b))) == b
  {
    if b.TextContent? {
      TextReplaysWhole(c, b.text);
    } else {
      ReplayTwo(true, c, BlockStart(|c.blocks|, WholeHeader(b)), BlockStop(|c.blocks|));
    }
  }

  function StreamedBlock(codec: Codec, b: ContentBlock): Block {
    match b
    case ToolUseContent(id, name, input) => ToolBlock(id, name, Obj([]), (codec.stringify)(input))
    case TextContent(text) => TextBlock(text)
    case _ => TextBlock("")
  }

  lemma StreamedReplays(codec: Codec, c: Client, b: ContentBlock)
    requires c.phase == Body && !c.open && (b.TextContent? || b.ToolUseContent?)
    ensures Replay(true, c, StreamedEvents(codec, |c.blocks|, b)) == Some(c.(blocks := c.blocks + [StreamedBlock(codec, b)]))
    ensures ContentOf(codec, StreamedBlock(codec, b)) == WireBlock(codec, b)
  {
    if b.TextContent? {
      TextReplaysWhole(c, b.text);
    } else {
      var i, json := |c.blocks|, (codec.stringify)(b.input);
      var empty := ToolBlock(b.id, b.name, Obj([]), "");
      assert (c.blocks + [empty])[i := empty.(json := "" + json)] == c.blocks + [StreamedBlock(codec, b)] by {
        assert "" + json == json;
      }
      ReplayThree(true, c, BlockStart(i, ToolHeader(b.id, b.name, Obj([]))), BlockDelta(i, JsonDelta(json)), BlockStop(i));
    }
  }

  // ----- replaying the whole message -----

  /** `d` is `c` with blocks appended that carry `content`. */
  ghost predicate Carries(codec: Codec, c: Client, d: Client, content: seq<ContentBlock>) {
    && |d.blocks| == |c.blocks| + |content|
    && d == c.(blocks := d.blocks)
    && (forall i :: 0 <= i < |c.blocks| ==> d.blocks[i] == c.blocks[i])
    && forall i :: 0 <= i < |content| ==> ContentOf(codec, d.blocks[|c.blocks| + i]) == content[i]
  }

  lemma CarriesMore(codec: Codec, c: Client, b: Block, d: Client, content: seq<ContentBlock>)
    requires content != [] && ContentOf(codec, b) == content[0]
    requires Carries(codec, c.(blocks := c.blocks + [b]), d, content[1..])
    ensures Carries(codec, c, d, content)
  {
    var e := c.(blocks := c.blocks + [b]);
    assert d.blocks[|c.blocks|] == e.blocks[|c.blocks|] == b;
    forall i | 0 <= i < |c.blocks| ensures d.blocks[i] == c.blocks[i] {
      assert d.blocks[i] == e.blocks[i];
    }
    forall i | 0 <= i < |content| ensures ContentOf(codec, d.blocks[|c.blocks| + i]) == content[i] {
      if i > 0 { assert content[1..][i - 1] == content[i] && |e.blocks| + (i - 1) == |c.blocks| + i; }
    }
  }

  lemma {:induction false} AllWholeReplay(codec: Codec, c: Client, content: seq<ContentBlock>)
    requires c.phase == Body && !c.open
    ensures var d := Replay(true, c, AllWhole(content, |c.blocks|)); d.Some? && Carries(codec, c, d.value, content)
    decreases |content|
  {
    if content != [] {
      var b := content[0];
      var built := if b.TextContent? then TextBlock(b.text) else Opened(WholeHeader(b));
      var next := c.(blocks := c.blocks + [built]);
      WholeReplays(codec, c, b);
      AllWholeReplay(codec, next, content[1..]);
      ReplayConcat(true, c, WholeEvents(|c.blocks|, b), AllWhole(content[1..], |c.blocks| + 1));
      CarriesMore(codec, c, built, Replay(true, next, AllWhole(content[1..], |next.blocks|)).value, content);
    }
  }

  lemma {:induction false} AllStreamedReplay(codec: Codec, c: Client, content: seq<ContentBlock>)
    requires c.phase == Body && !c.open
    requires forall b <- content :: b.TextContent? || b.ToolUseContent?
    ensures var d := Replay(true, c, AllStreamed(codec, content, |c.blocks|));
            d.Some? && Carries(codec, c, d.value, OnTheWire(codec, content))
    decreases |content|
  {
    if content != [] {
      var b := content[0];
      assert b in content;
      var next := c.(blocks := c.blocks + [StreamedBlock(codec, b)]);
      StreamedReplays(codec, c, b);
      AllStreamedReplay(codec, next, content[1..]);
      ReplayConcat(true, c, StreamedEvents(codec, |c.blocks|, b), AllStreamed(codec, content[1..], |c.blocks| + 1));
      assert OnTheWire(codec, content)[1..] == OnTheWire(codec, content[1..]);
      CarriesMore(codec, c, StreamedBlock(codec, b), Replay(true, next, AllStreamed(codec, content[1..], |next.blocks|)).value,
                  OnTheWire(codec, content));
    }
  }

  lemma Framed(start: Event, middle: seq<Event>, stop: Event, c: Client)
    requires start.MessageStart? && stop.MessageDelta?
    requires var d := Fresh.(phase := Body, id := start.id, model := start.model, startUsage := start.usage);
             Replay(true, d, middle) == Some(c) && c.phase == Body && !c.open
    ensures Replay(true, Fresh, [start] + middle + [stop, MessageStop])
            == Some(c.(phase := Ended, stopReason := stop.stopReason, finalUsage := stop.usage))
  {
    ReplayConcat(true, Fresh, [start] + middle, [stop, MessageStop]);
    ReplayConcat(true, Fresh, [start], middle);
    ReplayOne(true, Fresh, start);
    ReplayTwo(true, c, stop, MessageStop);
  }

  /** Replaying the stream of an assembled web-search message gives its content, stop reason and counts. */
  lemma AssembledStreamReplays(codec: Codec, m: Assembled)
    ensures var events := AssembledEvents(m);
            var read := Replay(true, Fresh, events);
            && read.Some? && HasRead(codec, read.value, m.content)
            && read.value.id == m.id && read.value.model == m.model && read.value.stopReason == m.stopReason
            && read.value.startUsage == WireUsage(Some(m.inputTokens), 0, None, Some(m.webSearchRequests))
            && read.value.finalUsage == WireUsage(None, m.outputTokens, None, None)
            && StartedIndices(events) == UpFrom(0, |m.content|)
            && StoppedIndices(events) == UpFrom(0, |m.content|)
  {
    var start := MessageStart(m.id, m.model, WireUsage(Some(m.inputTokens), 0, None, Some(m.webSearchRequests)));
    var stop := MessageDelta(m.stopReason, WireUsage(None, m.outputTokens, None, None));
    var d := Fresh.(phase := Body, id := start.id, model := start.model, startUsage := start.usage);
    AllWholeReplay(codec, d, m.content);
    Framed(start, AllWhole(m.content, 0), stop, Replay(true, d, AllWhole(m.content, 0)).value);
    AcceptedNumbers(true, Fresh, AssembledEvents(m));
  }

  /** The content is unchanged on the wire if and only if the arguments of every call survive being written and read. */
  lemma {:induction false} WireIsExact(codec: Codec, items: seq<OutputItem>)
    ensures var content := TranslateOutput(items, codec.parse);
            OnTheWire(codec, content) == content
            <==> forall item <- items :: IsCall(item) ==> RoundTrips(codec, CallInput(codec.parse, item))
  {
    if items != [] {
      WireIsExact(codec, items[1..]);
      var head, rest := TranslateOutputItem(items[0], codec.parse), TranslateOutput(items[1..], codec.parse);
      WireOfItem(codec, items[0]);
      WireConcat(codec, head, rest);
      assert forall item :: item in items <==> item == items[0] || item in items[1..];
    }
  }

  lemma WireConcat(codec: Codec, a: seq<ContentBlock>, b: seq<ContentBlock>)
    ensures OnTheWire(codec, a + b) == a + b <==> OnTheWire(codec, a) == a && OnTheWire(codec, b) == b
  {
    var c := OnTheWire(codec, a + b);
    assert c == OnTheWire(codec, a) + OnTheWire(codec, b);
    if c == a + b {
      assert OnTheWire(codec, a) == c[..|a|] == a;
      assert OnTheWire(codec, b) == c[|a|..] == b;
    }
  }

  lemma WireOfItem(codec: Codec, item: OutputItem)
    ensures var content := TranslateOutputItem(item, codec.parse);
            OnTheWire(codec, content) == content <==> (IsCall(item) ==> RoundTrips(codec, CallInput(codec.parse, item)))
  {
    var content := TranslateOutputItem(item, codec.parse);
    if IsCall(item) {
      assert content == [ToolUseContent(item.callId, item.name, CallInput(codec.parse, item))];
      assert OnTheWire(codec, content)[0] == WireBlock(codec, content[0]);
    } else {
      PartsAreText(item.parts);
      forall i | 0 <= i < |content| ensures OnTheWire(codec, content)[i] == content[i] {
        assert content[i] in content;
      }
    }
  }

  /**
   Replaying the stream of a Responses answer gives, for every codec, the message of its
   translation as anybody reads it who is sent it; and that message itself if and only if the
   arguments of every call survive being written and read.
   */
  lemma ResponsesStreamReplays(codec: Codec, r: ResponsesAnswer, clientModel: string)
    ensures var events := ResponsesEvents(codec, r, clientModel);
            var m := ResponsesToAnthropic(r, clientModel, codec.parse);
            var read := Replay(true, Fresh, events);
            && read.Some? && HasRead(codec, read.value, OnTheWire(codec, m.content))
            && (HasRead(codec, read.value, m.content)
                <==> forall item <- r.output :: IsCall(item) ==> RoundTrips(codec, CallInput(codec.parse, item)))
            && read.value.id == m.id && read.value.model == m.model && read.value.stopReason == m.stopReason
            && read.value.startUsage == m.usage.(outputTokens := 0)
            && read.value.finalUsage == WireUsage(None, m.usage.outputTokens, None, None)
            && StartedIndices(events) == UpFrom(0, |m.content|)
            && StoppedIndices(events) == UpFrom(0, |m.content|)
  {
    var m := ResponsesToAnthropic(r, clientModel, codec.parse);
    var start := MessageStart(m.id, m.model, m.usage.(outputTokens := 0));
    var stop := MessageDelta(m.stopReason, WireUsage(None, m.usage.outputTokens, None, None));
    var d := Fresh.(phase := Body, id := start.id, model := start.model, startUsage := start.usage);
    OutputHasTwoKinds(r.output, codec.parse);
    AllStreamedReplay(codec, d, m.content);
    Framed(start, AllStreamed(codec, m.content, 0), stop, Replay(true, d, AllStreamed(codec, m.content, 0)).value);
    AcceptedNumbers(true, Fresh, ResponsesEvents(codec, r, clientModel));
    WireIsExact(codec, r.output);
    ReadOneContent(codec, Replay(true, Fresh, ResponsesEvents(codec, r, clientModel)).value, OnTheWire(codec, m.content), m.content);
  }

  /** A client has read one content only. */
  lemma ReadOneContent(codec: Codec, c: Client, a: seq<ContentBlock>, b: seq<ContentBlock>)
    requires HasRead(codec, c, a)
    ensures HasRead(codec, c, b) <==> a == b
  {
    if HasRead(codec, c, b) {
      forall i | 0 <= i < |a| ensures a[i] == b[i] {
        assert ContentOf(codec, c.blocks[i]) == a[i];
      }
    }
  }

  // ----- an argument that does not survive -----

  const Overflow := OutputItem(FunctionCallItem, [], "f", "{\"x\":1e400}", "c")

  /** Of a number too large the parser makes Infinity, which is written as null: the client reads null. */
  lemma OverflowIsReadAsNull(codec: Codec, id: string, clientModel: string)
    requires (codec.parse)("{\"x\":1e400}") == Some(Obj([Field("x", Num("null"))]))
    requires (codec.stringify)(Obj([Field("x", Num("null"))])) == "{\"x\":null}"
    requires (codec.parse)("{\"x\":null}") == Some(Obj([Field("x", Null)]))
    ensures var r := ResponsesAnswer(id, [Overflow], 0, 0);
            var read := Replay(true, Fresh, ResponsesEvents(codec, r, clientModel));
            && ResponsesToAnthropic(r, clientModel, codec.parse).content == [ToolUseContent("c", "f", Obj([Field("x", Num("null"))]))]
            && read.Some? && HasRead(codec, read.value, [ToolUseContent("c", "f", Obj([Field("x", Null)]))])
  {
    var r := ResponsesAnswer(id, [Overflow], 0, 0);
    ResponsesStreamReplays(codec, r, clientModel);
    var content := [ToolUseContent("c", "f", Obj([Field("x", Num("null"))]))];
    assert [Overflow][1..] == [] && TranslateOutput([Overflow], codec.parse) == content + [];
    assert OnTheWire(codec, content) == [WireBlock(codec, content[0])];
  }

  // ----- what a translated answer carries, by position -----

  predicate IsSaid(p: OutputPart) { p.isText && p.text != "" }

  /** One tool use for a named call, one text block for every text of a message that is not empty, nothing for anything else. */
  ghost predicate CarriesItem(parse: InputParser, item: OutputItem, blocks: seq<ContentBlock>) {
    if item.kind.FunctionCallItem? && item.name != "" && item.callId != "" then
      && |blocks| == 1 && blocks[0].ToolUseContent? && blocks[0].id == item.callId && blocks[0].name == item.name
      && (if item.arguments == "" then blocks[0].input == Obj([]) else IsInput(parse, item.arguments, blocks[0].input))
    else if item.kind.MessageItem? then CarriesSaid(item.parts, blocks)
    else blocks == []
  }

  predicate IsBlockOfPart(p: OutputPart, b: ContentBlock) { b == TextContent(p.text) }

  ghost predicate CarriesSaid(parts: seq<OutputPart>, blocks: seq<ContentBlock>) {
    Filtered(parts, IsSaid, IsBlockOfPart, blocks)
  }

  lemma {:induction false} PartBlocksFilter(parts: seq<OutputPart>)
    ensures CarriesSaid(parts, PartBlocks(parts))
  {
    if parts == [] {
      FilteredNone(IsSaid, IsBlockOfPart);
    } else {
      PartBlocksFilter(parts[1..]);
      var head := if IsSaid(parts[0]) then [TextContent(parts[0].text)] else [];
      FilteredMore(parts, IsSaid, IsBlockOfPart, head, PartBlocks(parts[1..]));
      assert PartBlocks(parts) == head + PartBlocks(parts[1..]);
    }
  }

  lemma ItemCarried(parse: InputParser, item: OutputItem)
    ensures CarriesItem(parse, item, TranslateOutputItem(item, parse))
    ensures IsCall(item) <==> exists b <- TranslateOutputItem(item, parse) :: b.ToolUseContent?
  {
    PartBlocksFilter(item.parts);
    PartsAreText(item.parts);
    if IsCall(item) { assert TranslateOutputItem(item, parse)[0].ToolUseContent?; }
  }

  ghost predicate CarriesOutput(parse: InputParser, output: seq<OutputItem>, parts: seq<seq<ContentBlock>>) {
    |parts| == |output| && forall i :: 0 <= i < |output| ==> CarriesItem(parse, output[i], parts[i])
  }

  lemma {:induction false} OutputCarried(parse: InputParser, output: seq<OutputItem>) returns (parts: seq<seq<ContentBlock>>)
    ensures TranslateOutput(output, parse) == Flat(parts) && CarriesOutput(parse, output, parts)
    ensures (exists b <- TranslateOutput(output, parse) :: b.ToolUseContent?) <==> exists item <- output :: IsCall(item)
  {
    if output == [] {
      parts := [];
    } else {
      var rest := OutputCarried(parse, output[1..]);
      var head := TranslateOutputItem(output[0], parse);
      parts := [head] + rest;
      FlatMore(head, rest);
      ItemCarried(parse, output[0]);
      assert forall item :: item in output <==> item == output[0] || item in output[1..];
      assert forall b :: b in TranslateOutput(output, parse) <==> b in head || b in TranslateOutput(output[1..], parse);
    }
  }

  /**
   The translated answer: the content of every output item in order, the stop reason tool use
   if and only if some item is a named call and end of turn otherwise, and the answer's own
   id and token counts under the client's model name.
   */
  lemma ResponsesMessageExactly(r: ResponsesAnswer, clientModel: string, parse: InputParser) returns (parts: seq<seq<ContentBlock>>)
    ensures var m := ResponsesToAnthropic(r, clientModel, parse);
            && m.content == Flat(parts) && CarriesOutput(parse, r.output, parts)
            && m.id == r.id && m.model == clientModel
            && m.usage.inputTokens == Some(r.inputTokens) && m.usage.outputTokens == r.outputTokens
            && (if exists item <- r.output :: item.kind.FunctionCallItem? && item.name != "" && item.callId != ""
                then m.stopReason == Some(ToolUse) else m.stopReason == Some(EndTurn))
  {
    parts := OutputCarried(parse, r.output);
    assert forall item <- r.output :: IsCall(item) <==> item.kind.FunctionCallItem? && item.name != "" && item.callId != "";
  }
}
