/**
 What a translated history says (routes/messages/non-stream-translation.ts): the texts,
 images, results and calls of every turn reach the chat messages, all of them and in order.
 The laws are stated by position, without the functions that translate.
 */
module TurnContents {
  import opened Common
  import opened ContextFit
  import opened ToolPairing

  // ----- the content of one message -----

  predicate IsText(b: Block) { b.TextBlock? }

  predicate IsPicture(b: Block) { b.ImageBlock? }

  predicate IsPart(b: Block) { b.TextBlock? || b.ImageBlock? }

  predicate IsResult(b: Block) { b.ToolResultBlock? }

  predicate IsUse(b: Block) { b.ToolUseBlock? }

  /** The blank line between two texts. */
  const BlankLine := "\n\n"

  predicate IsTextOf(b: Block, text: string) { b.TextBlock? && text == b.text }

  /** `text` is made of the text blocks of `bs`, in order, with blank lines between them. */
  ghost predicate SaysTexts(bs: seq<Block>, text: string) {
    exists texts :: Filtered(bs, IsText, IsTextOf, texts) && Joined(text, texts, BlankLine)
  }

  /** A part with the block's text, or the data URL of its image. */
  predicate IsPartOf(b: Block, part: Part) {
    match b
    case TextBlock(text) => part == TextPart(text)
    case ImageBlock(mediaType, data) => part == ImagePart("data:" + mediaType + ";base64," + data)
    case _ => false
  }

  /** The chat content says what the content of a turn or tool result says. */
  ghost predicate Conveys(c: BlockContent, content: Content) {
    match c
    case Plain(text) => content == Text(text)
    case Blocks(bs) =>
      if exists b <- bs :: IsPicture(b) then content.Parts? && Filtered(bs, IsPart, IsPartOf, content.parts)
      else content.Text? && SaysTexts(bs, content.text)
  }

  lemma {:induction false} TextsFilter(bs: seq<Block>)
    ensures Filtered(bs, IsText, IsTextOf, Texts(bs))
  {
    if bs == [] {
      FilteredNone(IsText, IsTextOf);
    } else {
      TextsFilter(bs[1..]);
      var head := if IsText(bs[0]) then [bs[0].text] else [];
      FilteredMore(bs, IsText, IsTextOf, head, Texts(bs[1..]));
      assert Texts(bs) == head + Texts(bs[1..]);
    }
  }

  lemma JoinedTexts(bs: seq<Block>)
    ensures SaysTexts(bs, Join(Texts(bs), BlankLine))
  {
    TextsFilter(bs);
    JoinIsJoined(Texts(bs), BlankLine);
  }

  lemma {:induction false} PartsFilter(bs: seq<Block>)
    ensures Filtered(bs, IsPart, IsPartOf, ContentParts(bs))
  {
    if bs == [] {
      FilteredNone(IsPart, IsPartOf);
    } else {
      PartsFilter(bs[1..]);
      var head := match bs[0]
                  case TextBlock(text) => [TextPart(text)]
                  case ImageBlock(mediaType, data) => [ImagePart("data:" + mediaType + ";base64," + data)]
                  case _ => [];
      FilteredMore(bs, IsPart, IsPartOf, head, ContentParts(bs[1..]));
    }
  }

  /** Mapping a content conveys it. */
  lemma MapConveys(c: BlockContent)
    ensures Conveys(c, MapContent(c))
  {
    if c.Blocks? {
      JoinedTexts(c.blocks);
      PartsFilter(c.blocks);
    }
  }

  // ----- one turn -----

  lemma {:induction false} OthersSayTheSame(bs: seq<Block>)
    ensures Texts(OtherBlocks(bs)) == Texts(bs) && ContentParts(OtherBlocks(bs)) == ContentParts(bs)
    ensures (exists b <- OtherBlocks(bs) :: b.ImageBlock?) <==> (exists b <- bs :: b.ImageBlock?)
    ensures OtherBlocks(bs) == [] <==> forall b <- bs :: b.ToolResultBlock?
  {
    if bs != [] {
      OthersSayTheSame(bs[1..]);
      var rest := OtherBlocks(bs[1..]);
      assert forall b :: b in bs <==> b == bs[0] || b in bs[1..];
      if !bs[0].ToolResultBlock? {
        assert OtherBlocks(bs)[0] == bs[0] && OtherBlocks(bs)[1..] == rest;
        assert forall b :: b in OtherBlocks(bs) <==> b == bs[0] || b in rest;
      }
    }
  }

  /** A tool message with the result's id that says what the result says. */
  predicate AnswersResult(b: Block, m: Message) {
    && b.ToolResultBlock?
    && m.role.Tool? && m.toolCallId == b.toolUseId && m.toolCalls == []
    && m.content == MapContent(b.content)
  }

  /** Every tool message says what its result says. */
  lemma AnswersConvey(b: Block, m: Message)
    requires AnswersResult(b, m)
    ensures Conveys(b.content, m.content)
  {
    MapConveys(b.content);
  }

  /**
   The messages of a user turn: one tool message for every tool result, in order, and then, if
   anything else was said, one user message that says it.
   */
  ghost predicate ConveysUser(c: BlockContent, ms: seq<Message>) {
    match c
    case Plain(text) => ms == [Message(User, Text(text), [], "")]
    case Blocks(bs) =>
      if forall b <- bs :: IsResult(b) then ConveysResults(bs, ms)
      else
        && ms != [] && ConveysResults(bs, ms[..|ms| - 1])
        && var said := ms[|ms| - 1]; said == Message(User, said.content, [], "") && Conveys(c, said.content)
  }

  ghost predicate ConveysResults(bs: seq<Block>, ms: seq<Message>) {
    exists at :: Selects(bs, IsResult, at) && |ms| == |at| && forall k :: 0 <= k < |at| ==> ConveysResult(bs, at[k], ms[k])
  }

  ghost predicate ConveysResult(bs: seq<Block>, i: nat, m: Message) {
    && i < |bs| && bs[i].ToolResultBlock?
    && m.role.Tool? && m.toolCallId == bs[i].toolUseId && m.toolCalls == [] && Conveys(bs[i].content, m.content)
  }

  lemma {:induction false} ResultsFilter(bs: seq<Block>)
    ensures Filtered(bs, IsResult, AnswersResult, ToolMessages(bs))
  {
    if bs == [] {
      FilteredNone(IsResult, AnswersResult);
    } else {
      ResultsFilter(bs[1..]);
      var head := if IsResult(bs[0]) then [ToolMessage(bs[0])] else [];
      FilteredMore(bs, IsResult, AnswersResult, head, ToolMessages(bs[1..]));
      assert ToolMessages(bs) == head + ToolMessages(bs[1..]);
    }
  }

  lemma ResultsConveyed(bs: seq<Block>)
    ensures ConveysResults(bs, ToolMessages(bs))
  {
    ResultsFilter(bs);
    var ms := ToolMessages(bs);
    var at :| Selects(bs, IsResult, at) && Matches(bs, AnswersResult, at, ms);
    forall k | 0 <= k < |at| ensures ConveysResult(bs, at[k], ms[k]) {
      assert AnswersResult(bs[at[k]], ms[k]);
      AnswersConvey(bs[at[k]], ms[k]);
    }
  }

  /** Nothing a user turn says is lost, added or moved. */
  lemma UserTurnConveys(c: BlockContent)
    ensures ConveysUser(c, HandleUserMessage(c))
  {
    if c.Blocks? {
      var bs, ms := c.blocks, HandleUserMessage(c);
      ResultsConveyed(bs);
      OthersSayTheSame(bs);
      MapConveys(c);
      assert MapContent(Blocks(OtherBlocks(bs))) == MapContent(c);
      if OtherBlocks(bs) != [] { assert ms[..|ms| - 1] == ToolMessages(bs); } else { assert ms == ToolMessages(bs); }
    }
  }

  predicate IsCallOf(b: Block, call: ToolCall) {
    b.ToolUseBlock? && call == ToolCall(b.id, b.name, b.input)
  }

  /**
   The message of an assistant turn: one call for every tool use, in order. Beside calls it has
   the turn's texts, and no content when they are empty; without calls, what the turn says.
   */
  ghost predicate ConveysAssistant(c: BlockContent, m: Message) {
    && m.role.Assistant? && m.toolCallId == ""
    && match c
       case Plain(text) => m.content == Text(text) && m.toolCalls == []
       case Blocks(bs) =>
         && Filtered(bs, IsUse, IsCallOf, m.toolCalls)
         && (m.toolCalls == [] ==> Conveys(c, m.content))
         && (m.toolCalls != [] ==>
               (m.content.Text? && m.content.text != "" && SaysTexts(bs, m.content.text)) || (m.content.NoContent? && SaysTexts(bs, "")))
  }

  lemma {:induction false} UsesFilter(bs: seq<Block>)
    ensures Filtered(bs, IsUse, IsCallOf, ToolCallsOf(bs))
  {
    if bs == [] {
      FilteredNone(IsUse, IsCallOf);
    } else {
      UsesFilter(bs[1..]);
      var head := if IsUse(bs[0]) then [ToolCall(bs[0].id, bs[0].name, bs[0].input)] else [];
      FilteredMore(bs, IsUse, IsCallOf, head, ToolCallsOf(bs[1..]));
      assert ToolCallsOf(bs) == head + ToolCallsOf(bs[1..]);
    }
  }

  lemma AssistantTurnConveys(c: BlockContent)
    ensures ConveysAssistant(c, HandleAssistantMessage(c))
  {
    if c.Blocks? {
      UsesFilter(c.blocks);
      MapConveys(c);
      JoinedTexts(c.blocks);
    }
  }

  // ----- a whole history -----

  ghost predicate ConveysTurn(t: Turn, ms: seq<Message>) {
    match t
    case UserTurn(c) => ConveysUser(c, ms)
    case AssistantTurn(c) => |ms| == 1 && ConveysAssistant(c, ms[0])
  }

  ghost predicate ConveysTurns(history: seq<Turn>, parts: seq<seq<Message>>) {
    |parts| == |history| && forall t :: 0 <= t < |history| ==> ConveysTurn(history[t], parts[t])
  }

  lemma {:induction false} TurnsConveyed(history: seq<Turn>) returns (parts: seq<seq<Message>>)
    ensures ConveysTurns(history, parts) && TranslateTurns(history) == Flat(parts)
    decreases |history|
  {
    if history == [] {
      parts := [];
    } else {
      var rest := TurnsConveyed(history[1..]);
      var head := TurnMessages(history[0]);
      parts := [head] + rest;
      UserTurnConveys(history[0].content);
      AssistantTurnConveys(history[0].content);
      FlatMore(head, rest);
      forall t | 0 <= t < |history| ensures ConveysTurn(history[t], parts[t]) {
        if t > 0 { assert ConveysTurn(history[1..][t - 1], rest[t - 1]); }
      }
    }
  }

  /** The system prompt, if there is any, as the one system message in front. */
  ghost predicate ConveysSystem(system: Option<BlockContent>, ms: seq<Message>) {
    match system
    case None => ms == []
    case Some(Plain(text)) => ms == if text == "" then [] else [Message(System, Text(text), [], "")]
    case Some(Blocks(bs)) =>
      |ms| == 1 && ms[0] == Message(System, ms[0].content, [], "") && ms[0].content.Text? && SaysTexts(bs, ms[0].content.text)
  }

  /**
   The translation of a whole history is the system prompt followed by the messages of every
   turn in order, each saying what its turn says; nothing is lost and nothing added.
   */
  lemma TranslationConveysHistory(system: Option<BlockContent>, history: seq<Turn>)
    returns (prompt: seq<Message>, parts: seq<seq<Message>>)
    ensures Translate(system, history) == prompt + Flat(parts)
    ensures ConveysSystem(system, prompt) && ConveysTurns(history, parts)
  {
    prompt := SystemMessages(system);
    parts := TurnsConveyed(history);
    if system.Some? && system.value.Blocks? { JoinedTexts(system.value.blocks); }
  }
}
