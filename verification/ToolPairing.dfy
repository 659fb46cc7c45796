/**
 Tool results stay behind their tool calls: from an Anthropic history, through its
 translation to chat messages (routes/messages/non-stream-translation.ts), the stripping
 of trailing assistant turns, and the context fitter.
 */
module ToolPairing {
  import opened Common
  import opened ContextFit

  // ----- Anthropic histories -----

  datatype Block =
    | TextBlock(text: string)
    | ImageBlock(mediaType: string, data: string)
    | ToolResultBlock(toolUseId: string, content: BlockContent)
    | DocumentBlock
    | ToolUseBlock(id: string, name: string, input: string)   // the JSON text of the input
    | ThinkingBlock(thinking: string)

  datatype BlockContent = Plain(text: string) | Blocks(blocks: seq<Block>)

  datatype Turn = UserTurn(content: BlockContent) | AssistantTurn(content: BlockContent)

  // ----- translation -----

  function Texts(bs: seq<Block>): seq<string> {
    if bs == [] then []
    else if bs[0].TextBlock? then [bs[0].text] + Texts(bs[1..])
    else Texts(bs[1..])
  }

  function ContentParts(bs: seq<Block>): seq<Part> {
    if bs == [] then []
    else
      (match bs[0]
       case TextBlock(text) => [TextPart(text)]
       case ImageBlock(mediaType, data) => [ImagePart("data:" + mediaType + ";base64," + data)]
       case _ => []) + ContentParts(bs[1..])
  }

  function MapContent(c: BlockContent): Content {
    match c
    case Plain(text) => Text(text)
    case Blocks(bs) =>
      if exists b <- bs :: b.ImageBlock? then Parts(ContentParts(bs)) else Text(Join(Texts(bs), "\n\n"))
  }

  function ToolResults(bs: seq<Block>): seq<Block> {
    if bs == [] then []
    else if bs[0].ToolResultBlock? then [bs[0]] + ToolResults(bs[1..])
    else ToolResults(bs[1..])
  }

  function OtherBlocks(bs: seq<Block>): seq<Block> {
    if bs == [] then []
    else if bs[0].ToolResultBlock? then OtherBlocks(bs[1..])
    else [bs[0]] + OtherBlocks(bs[1..])
  }

  function ToolMessage(b: Block): Message
    requires b.ToolResultBlock?
  {
    Message(Tool, MapContent(b.content), [], b.toolUseId)
  }

  /** One tool message per tool result, in order. */
  function ToolMessages(bs: seq<Block>): seq<Message> {
    if bs == [] then []
    else if bs[0].ToolResultBlock? then [ToolMessage(bs[0])] + ToolMessages(bs[1..])
    else ToolMessages(bs[1..])
  }

  /** Tool results first, whatever their place in the turn; then the rest as one user message. */
  function HandleUserMessage(c: BlockContent): seq<Message> {
    match c
    case Plain(_) => [Message(User, MapContent(c), [], "")]
    case Blocks(bs) =>
      ToolMessages(bs)
      + (if OtherBlocks(bs) == [] then [] else [Message(User, MapContent(Blocks(OtherBlocks(bs))), [], "")])
  }

  method RunHandleUserMessage(content: BlockContent) returns (newMessages: seq<Message>)
    ensures newMessages == HandleUserMessage(content)
  {
    newMessages := [];
    if content.Blocks? {
      var toolResultBlocks := ToolResults(content.blocks);
      var otherBlocks := OtherBlocks(content.blocks);
      ToolMessagesOfResults(content.blocks);
      for i := 0 to |toolResultBlocks|
        invariant newMessages + ToolMessages(toolResultBlocks[i..]) == ToolMessages(toolResultBlocks)
        invariant forall b <- toolResultBlocks :: b.ToolResultBlock?
      {
        var block := toolResultBlocks[i];
        assert block in toolResultBlocks && toolResultBlocks[i..][0] == block;
        assert toolResultBlocks[i..][1..] == toolResultBlocks[i + 1..];
        newMessages := newMessages + [Message(Tool, MapContent(block.content), [], block.toolUseId)];
      }
      if |otherBlocks| > 0 {
        newMessages := newMessages + [Message(User, MapContent(Blocks(otherBlocks)), [], "")];
      }
    } else {
      newMessages := newMessages + [Message(User, MapContent(content), [], "")];
    }
  }

  lemma {:induction false} ToolMessagesOfResults(bs: seq<Block>)
    ensures ToolMessages(ToolResults(bs)) == ToolMessages(bs)
    ensures forall b <- ToolResults(bs) :: b.ToolResultBlock?
  {
    if bs != [] {
      ToolMessagesOfResults(bs[1..]);
      var rest := ToolResults(bs[1..]);
      if bs[0].ToolResultBlock? {
        assert ([bs[0]] + rest)[0] == bs[0] && ([bs[0]] + rest)[1..] == rest;
      }
    }
  }

  function ToolCallsOf(bs: seq<Block>): seq<ToolCall> {
    if bs == [] then []
    else if bs[0].ToolUseBlock? then [ToolCall(bs[0].id, bs[0].name, bs[0].input)] + ToolCallsOf(bs[1..])
    else ToolCallsOf(bs[1..])
  }

  /** Thinking is dropped; a turn with tool calls and no text has no content. */
  function HandleAssistantMessage(c: BlockContent): Message {
    match c
    case Plain(_) => Message(Assistant, MapContent(c), [], "")
    case Blocks(bs) =>
      var text := Join(Texts(bs), "\n\n");
      var calls := ToolCallsOf(bs);
      if calls == [] then Message(Assistant, MapContent(c), [], "")
      else Message(Assistant, if text == "" then NoContent else Text(text), calls, "")
  }

  function TurnMessages(t: Turn): seq<Message> {
    match t
    case UserTurn(c) => HandleUserMessage(c)
    case AssistantTurn(c) => [HandleAssistantMessage(c)]
  }

  function TranslateTurns(history: seq<Turn>): seq<Message> {
    if history == [] then [] else TurnMessages(history[0]) + TranslateTurns(history[1..])
  }

  /** An absent or empty system text gives no message; a list of blocks gives one, even an empty one. */
  function SystemMessages(system: Option<BlockContent>): seq<Message> {
    match system
    case None => []
    case Some(Plain(text)) => if text == "" then [] else [Message(System, Text(text), [], "")]
    case Some(Blocks(bs)) => [Message(System, Text(Join(Texts(bs), "\n\n")), [], "")]
  }

  function Translate(system: Option<BlockContent>, history: seq<Turn>): seq<Message> {
    SystemMessages(system) + TranslateTurns(history)
  }

  function StripTrailingAssistantPrefill(ms: seq<Message>): seq<Message> {
    if ms != [] && ms[|ms| - 1].role.Assistant? then StripTrailingAssistantPrefill(ms[..|ms| - 1]) else ms
  }

  method RunStripTrailingAssistantPrefill(messages: seq<Message>) returns (r: seq<Message>)
    ensures r == StripTrailingAssistantPrefill(messages)
    ensures r <= messages
    ensures r == [] || !r[|r| - 1].role.Assistant?
    ensures forall i :: |r| <= i < |messages| ==> messages[i].role.Assistant?
  {
    var end := |messages|;
    assert messages[..end] == messages;
    while end > 0 && messages[end - 1].role.Assistant?
      invariant 0 <= end <= |messages|
      invariant StripTrailingAssistantPrefill(messages[..end]) == StripTrailingAssistantPrefill(messages)
      invariant forall i :: end <= i < |messages| ==> messages[i].role.Assistant?
    {
      assert messages[..end][..end - 1] == messages[..end - 1];
      end := end - 1;
    }
    r := messages[..end];
  }

  // ----- pairing -----

  function Ids(calls: seq<ToolCall>): set<string> {
    set c | c in calls :: c.id
  }

  /** The calls a tool message may answer after `m`, given those it could answer before. */
  function After(announced: set<string>, m: Message): set<string> {
    match m.role
    case Tool => announced
    case Assistant => Ids(m.toolCalls)
    case _ => {}
  }

  /** Every tool message stands in a run directly after an assistant message announcing its id. */
  predicate PairedFrom(announced: set<string>, ms: seq<Message>)
    decreases |ms|
  {
    ms == [] ||
    (&& (ms[0].role.Tool? ==> ms[0].toolCallId in announced)
     && PairedFrom(After(announced, ms[0]), ms[1..]))
  }

  predicate Paired(ms: seq<Message>) { PairedFrom({}, ms) }

  /** The message at `q` announces the call that the tool message at `p` answers, with only tool messages between. */
  predicate AnswersAt(ms: seq<Message>, q: int, p: int)
    requires p < |ms|
  {
    && 0 <= q < p
    && ms[q].role.Assistant? && ms[p].toolCallId in Ids(ms[q].toolCalls)
    && forall i :: q < i < p ==> ms[i].role.Tool?
  }

  /** What pairing means, message by message. */
  lemma {:induction false} PairedMeans(announced: set<string>, ms: seq<Message>, p: nat)
    requires PairedFrom(announced, ms) && p < |ms| && ms[p].role.Tool?
    ensures || (exists q :: AnswersAt(ms, q, p))
            || (ms[p].toolCallId in announced && forall i :: 0 <= i < p ==> ms[i].role.Tool?)
    decreases |ms|
  {
    if p > 0 {
      var rest := ms[1..];
      PairedMeans(After(announced, ms[0]), rest, p - 1);
      var before := p - 1;
      if exists q :: AnswersAt(rest, q, before) {
        var q :| AnswersAt(rest, q, before);
        assert forall i :: q + 1 < i < p ==> ms[i] == rest[i - 1];
        assert AnswersAt(ms, q + 1, p);
      } else {
        assert forall i :: 0 < i < p ==> ms[i] == rest[i - 1];
        if ms[0].role.Assistant? {
          assert AnswersAt(ms, 0, p);
        }
      }
    }
  }

  /** Every tool result of the turn answers one of `uses`. */
  predicate TurnAnswers(uses: set<string>, t: Turn) {
    t.UserTurn? && t.content.Blocks? ==> forall b <- t.content.blocks :: b.ToolResultBlock? ==> b.toolUseId in uses
  }

  function UsesOf(t: Turn): set<string> {
    if t.AssistantTurn? && t.content.Blocks? then Ids(ToolCallsOf(t.content.blocks)) else {}
  }

  /** The uses that may still be answered: a user turn of tool results alone leaves them open. */
  function NextUses(uses: set<string>, t: Turn): set<string> {
    if t.UserTurn? && t.content.Blocks? && OtherBlocks(t.content.blocks) == [] then uses else UsesOf(t)
  }

  /** A history whose tool results answer the assistant turn they follow. */
  predicate Answered(uses: set<string>, history: seq<Turn>)
    decreases |history|
  {
    history == [] || (TurnAnswers(uses, history[0]) && Answered(NextUses(uses, history[0]), history[1..]))
  }

  lemma {:induction false} ToolMessagesPaired(announced: set<string>, bs: seq<Block>, rest: seq<Message>)
    ensures PairedFrom(announced, ToolMessages(bs) + rest)
            <==> (forall b <- bs :: b.ToolResultBlock? ==> b.toolUseId in announced) && PairedFrom(announced, rest)
  {
    if bs == [] {
      assert [] + rest == rest;
    } else {
      ToolMessagesPaired(announced, bs[1..], rest);
      assert bs == [bs[0]] + bs[1..];
      if bs[0].ToolResultBlock? {
        assert (ToolMessages(bs) + rest)[0] == ToolMessage(bs[0]);
        assert (ToolMessages(bs) + rest)[1..] == ToolMessages(bs[1..]) + rest;
      }
    }
  }

  lemma TurnPairs(uses: set<string>, t: Turn, rest: seq<Message>)
    ensures PairedFrom(uses, TurnMessages(t) + rest)
            <==> TurnAnswers(uses, t) && PairedFrom(NextUses(uses, t), rest)
  {
    match t
    case UserTurn(Plain(x)) =>
      assert ([Message(User, Text(x), [], "")] + rest)[1..] == rest;
    case UserTurn(Blocks(bs)) =>
      var others := OtherBlocks(bs);
      var users := if others == [] then [] else [Message(User, MapContent(Blocks(others)), [], "")];
      assert TurnMessages(t) + rest == ToolMessages(bs) + (users + rest);
      ToolMessagesPaired(uses, bs, users + rest);
      if others == [] {
        assert users + rest == rest;
      } else {
        assert (users + rest)[0] == users[0] && (users + rest)[1..] == rest;
      }
    case AssistantTurn(c) =>
      assert ([HandleAssistantMessage(c)] + rest)[1..] == rest;
  }

  /** The translation is paired exactly when the history answers its own tool uses. */
  lemma {:induction false} TranslationPairsExactly(uses: set<string>, history: seq<Turn>)
    ensures PairedFrom(uses, TranslateTurns(history)) <==> Answered(uses, history)
    decreases |history|
  {
    if history != [] {
      TurnPairs(uses, history[0], TranslateTurns(history[1..]));
      TranslationPairsExactly(NextUses(uses, history[0]), history[1..]);
    }
  }

  /** The usual protocol: results answer the immediately preceding assistant turn. */
  predicate ImmediatelyAnswered(history: seq<Turn>) {
    && (history != [] ==> TurnAnswers({}, history[0]))
    && forall i :: 1 <= i < |history| ==> TurnAnswers(UsesOf(history[i - 1]), history[i])
  }

  lemma {:induction false} ImmediateAnswersFrom(uses: set<string>, history: seq<Turn>)
    requires history != [] ==> TurnAnswers(uses, history[0])
    requires forall i :: 1 <= i < |history| ==> TurnAnswers(UsesOf(history[i - 1]), history[i])
    ensures Answered(uses, history)
    decreases |history|
  {
    if history != [] {
      var rest := history[1..];
      assert forall i :: 0 <= i < |rest| ==> rest[i] == history[i + 1];
      if rest != [] {
        assert TurnAnswers(UsesOf(history[0]), history[1]);
      }
      forall i | 1 <= i < |rest| ensures TurnAnswers(UsesOf(rest[i - 1]), rest[i]) {
        assert TurnAnswers(UsesOf(history[i]), history[i + 1]);
      }
      ImmediateAnswersFrom(NextUses(uses, history[0]), rest);
    }
  }

  lemma ImmediateAnswersSuffice(history: seq<Turn>)
    requires ImmediatelyAnswered(history)
    ensures Answered({}, history)
  {
    ImmediateAnswersFrom({}, history);
  }

  // ----- pairing through the later stages -----

  lemma {:induction false} PairedMonotone(a: set<string>, b: set<string>, ms: seq<Message>)
    requires a <= b && PairedFrom(a, ms)
    ensures PairedFrom(b, ms)
    decreases |ms|
  {
    if ms != [] { PairedMonotone(After(a, ms[0]), After(b, ms[0]), ms[1..]); }
  }

  lemma {:induction false} PairedPrefix(announced: set<string>, ms: seq<Message>, n: nat)
    requires PairedFrom(announced, ms) && n <= |ms|
    ensures PairedFrom(announced, ms[..n])
    decreases |ms|
  {
    if n > 0 {
      PairedPrefix(After(announced, ms[0]), ms[1..], n - 1);
      assert ms[..n][0] == ms[0] && ms[..n][1..] == ms[1..][..n - 1];
    }
  }

  lemma {:induction false} PairedSkeleton(announced: set<string>, a: seq<Message>, b: seq<Message>)
    requires SameSkeleton(a, b)
    ensures PairedFrom(announced, a) <==> PairedFrom(announced, b)
    decreases |a|
  {
    if a != [] { PairedSkeleton(After(announced, a[0]), a[1..], b[1..]); }
  }

  lemma {:induction false} PairedConversation(announced: set<string>, ms: seq<Message>)
    requires PairedFrom(announced, ms)
    ensures PairedFrom(announced, Conversation(ms))
    decreases |ms|
  {
    if ms != [] {
      if IsSystem(ms[0]) {
        PairedMonotone({}, announced, ms[1..]);
        PairedConversation(announced, ms[1..]);
      } else {
        PairedConversation(After(announced, ms[0]), ms[1..]);
        var rest := Conversation(ms[1..]);
        assert ([ms[0]] + rest)[0] == ms[0] && ([ms[0]] + rest)[1..] == rest;
      }
    }
  }

  lemma {:induction false} SystemsBefore(sys: seq<Message>, conv: seq<Message>)
    requires forall m <- sys :: IsSystem(m)
    ensures Paired(sys + conv) <==> Paired(conv)
  {
    if sys == [] {
      assert sys + conv == conv;
    } else {
      SystemsBefore(sys[1..], conv);
      assert sys[0] in sys;
      assert (sys + conv)[0] == sys[0] && (sys + conv)[1..] == sys[1..] + conv;
    }
  }

  /** A suffix of a paired conversation is paired exactly when it does not start with a tool message. */
  lemma {:induction false} SuffixPairsExactly(announced: set<string>, conv: seq<Message>, k: nat)
    requires PairedFrom(announced, conv) && k <= |conv|
    ensures Paired(conv[k..]) <==> k == |conv| || !conv[k].role.Tool?
    decreases |conv|
  {
    if k == 0 {
      assert conv[0..] == conv;
      if conv != [] && !conv[0].role.Tool? {
        assert After({}, conv[0]) == After(announced, conv[0]);
      }
    } else {
      SuffixPairsExactly(After(announced, conv[0]), conv[1..], k - 1);
      assert conv[1..][k - 1..] == conv[k..];
    }
  }

  /** The last message before position `i` that is not a tool message, or -1. */
  function RunStart(conv: seq<Message>, i: nat): (a: int)
    requires i <= |conv|
    ensures -1 <= a < i
    ensures a >= 0 ==> !conv[a].role.Tool?
    ensures forall j :: a < j < i ==> conv[j].role.Tool?
  {
    if i == 0 then -1 else if !conv[i - 1].role.Tool? then i - 1 else RunStart(conv, i - 1)
  }

  /**
   The one way dropping strands a tool message, readable off the payload before dropping:
   the second to last conversation message is a tool result, and even the conversation
   from the assistant message it belongs to onwards is still too big.
   */
  predicate Strands(p: Payload, ceiling: int) {
    var conv := Conversation(p.messages);
    var n := |conv|;
    && n > 2 && conv[n - 2].role.Tool?
    && var a := RunStart(conv, n - 2);
       a >= 0 && BaseBytes(p) + MessagesBytes(conv[a..]) > ceiling
  }

  /** The facts about the two dropping loops that decide whether a result is stranded. */
  lemma DroppedHead(p: Payload, ceiling: int)
    ensures var conv := Conversation(p.messages);
            var k1 := OversizeCount(BaseBytes(p), conv, ceiling);
            var k := DroppedCount(p, ceiling);
            && k1 <= k <= Most0(|conv| - 2)
            && (k1 + 2 >= |conv| || BaseBytes(p) + MessagesBytes(conv[k1..]) <= ceiling)
            && (forall i :: 0 <= i < k1 ==> BaseBytes(p) + MessagesBytes(conv[i..]) > ceiling)
            && (forall i :: k1 <= i < k ==> conv[i].role.Tool?)
            && (|conv| - k <= 2 || !conv[k].role.Tool?)
  {
    var conv := Conversation(p.messages);
    var k1 := OversizeCount(BaseBytes(p), conv, ceiling);
    var k := DroppedCount(p, ceiling);
    OversizeIsFewest(BaseBytes(p), conv, ceiling);
    StraysFrom(conv, k1);
  }

  lemma StraysFrom(conv: seq<Message>, k1: nat)
    requires k1 <= |conv|
    ensures var k := k1 + StrayToolCount(conv[k1..]);
            && k <= Most0(|conv| - k1 - 2) + k1
            && (forall i :: k1 <= i < k ==> conv[i].role.Tool?)
            && (|conv| - k <= 2 || !conv[k].role.Tool?)
  {
    var k := k1 + StrayToolCount(conv[k1..]);
    StraysAreTools(conv[k1..]);
    forall i | k1 <= i < k ensures conv[i].role.Tool? {
      assert conv[k1..][i - k1] == conv[i];
    }
  }

  lemma HeadIsStray(p: Payload, ceiling: int)
    requires Paired(Conversation(p.messages))
    ensures var conv := Conversation(p.messages);
            var k := DroppedCount(p, ceiling);
            (k < |conv| && conv[k].role.Tool?) <==> Strands(p, ceiling)
  {
    var conv := Conversation(p.messages);
    assert conv != [] ==> !conv[0].role.Tool?;
    DroppedHead(p, ceiling);
    StrayOnlyIfStranded(p, ceiling);
    if Strands(p, ceiling) {
      StrandedIsStray(p, ceiling);
    }
  }

  lemma StrayOnlyIfStranded(p: Payload, ceiling: int)
    requires var conv := Conversation(p.messages); conv != [] ==> !conv[0].role.Tool?
    ensures var conv := Conversation(p.messages);
            var k := DroppedCount(p, ceiling);
            k < |conv| && conv[k].role.Tool? ==> Strands(p, ceiling)
  {
    var conv := Conversation(p.messages);
    var n, k, k1 := |conv|, DroppedCount(p, ceiling), OversizeCount(BaseBytes(p), conv, ceiling);
    DroppedHead(p, ceiling);
    if k < n && conv[k].role.Tool? {
      assert n > 2 && k == n - 2;
      var a := RunStart(conv, k);
      assert a >= 0 && !conv[a].role.Tool?;
      assert a < k1;
    }
  }

  lemma StrandedIsStray(p: Payload, ceiling: int)
    requires Strands(p, ceiling)
    ensures DroppedCount(p, ceiling) == |Conversation(p.messages)| - 2
  {
    var conv := Conversation(p.messages);
    var a := RunStart(conv, |conv| - 2);
    var k1 := OversizeCount(BaseBytes(p), conv, ceiling);
    DroppedHead(p, ceiling);
    if k1 <= a {
      SuffixBytes(conv, k1, a);
    }
  }

  /** Dropping old messages keeps a paired payload paired if and only if it does not strand a result. */
  lemma DropPairsExactly(p: Payload, ceiling: int)
    requires Paired(p.messages)
    ensures Paired(DropOldMessages(p, ceiling).messages) <==> !Strands(p, ceiling)
  {
    var conv := Conversation(p.messages);
    var k := DroppedCount(p, ceiling);
    PairedConversation({}, p.messages);
    HeadIsStray(p, ceiling);
    SuffixPairsExactly({}, conv, k);
    SplitMembers(p.messages);
    SystemsBefore(Systems(p.messages), conv[k..]);
  }

  function Request(system: Option<BlockContent>, history: seq<Turn>, toolLengths: seq<nat>): Payload {
    Payload(StripTrailingAssistantPrefill(Translate(system, history)), toolLengths)
  }

  lemma {:induction false} StripPrefillIsPrefix(ms: seq<Message>)
    ensures StripTrailingAssistantPrefill(ms) <= ms
  {
    if ms != [] && ms[|ms| - 1].role.Assistant? { StripPrefillIsPrefix(ms[..|ms| - 1]); }
  }

  lemma RequestIsPaired(system: Option<BlockContent>, history: seq<Turn>, toolLengths: seq<nat>)
    requires Answered({}, history)
    ensures Paired(Request(system, history, toolLengths).messages)
  {
    var ms := Translate(system, history);
    TranslationPairsExactly({}, history);
    var system := SystemMessages(system);
    assert if system == [] then ms == TranslateTurns(history) else ms[0] == system[0] && ms[1..] == TranslateTurns(history);
    StripPrefillIsPrefix(ms);
    var n := |StripTrailingAssistantPrefill(ms)|;
    assert StripTrailingAssistantPrefill(ms) == ms[..n];
    assert Paired(ms);
    PairedPrefix({}, ms, n);
  }

  /**
   End to end: for every answered history, what is sent after translation, prefill
   stripping and fitting has every tool message directly behind the assistant message
   that announces it, if and only if fitting does not have to strand a result. It never
   does while more than two conversation messages remain.
   */
  lemma PairingEndToEnd(system: Option<BlockContent>, history: seq<Turn>, toolLengths: seq<nat>, ceiling: int)
    requires Answered({}, history)
    ensures var p := Request(system, history, toolLengths);
            var q := Reduced(p, ceiling);
            var r := Fitted(p, ceiling);
            && (Paired(r.messages) <==> PayloadBytes(q) <= ceiling || !Strands(q, ceiling))
            && (PayloadBytes(p) <= ceiling ==> Paired(r.messages))
            && (|Conversation(r.messages)| > 2 ==> Paired(r.messages))
  {
    var p := Request(system, history, toolLengths);
    var q := Reduced(p, ceiling);
    RequestIsPaired(system, history, toolLengths);
    ReducedKeepsSkeleton(p, ceiling);
    PairedSkeleton({}, p.messages, q.messages);
    DropPairsExactly(q, ceiling);
    DropKeepsSuffix(q, ceiling);
    PairedConversation({}, q.messages);
    HeadIsStray(q, ceiling);
  }

  function TwoUses(input: string): seq<Block> {
    [ToolUseBlock("a", "f", input), ToolUseBlock("b", "f", "{}")]
  }

  const TwoResults := [ToolResultBlock("a", Plain("x")), ToolResultBlock("b", Plain("y"))]

  /** A turn with two tool uses, the first with the given input, and both results as the last turn. */
  function StrandingHistory(input: string): seq<Turn> {
    [UserTurn(Plain("go")), AssistantTurn(Blocks(TwoUses(input))), UserTurn(Blocks(TwoResults))]
  }

  /** It happens under every ceiling: the two results of a turn with a tool input longer than the ceiling. */
  lemma StrandingHappens(ceiling: int, input: string)
    requires |input| > ceiling
    ensures Answered({}, StrandingHistory(input))
    ensures !Paired(Fitted(Request(None, StrandingHistory(input), []), ceiling).messages)
  {
    StrandingAnswered(input);
    StrandingRequest(ceiling, input);
    PairingEndToEnd(None, StrandingHistory(input), [], ceiling);
  }

  lemma StrandingAnswered(input: string)
    ensures Answered({}, StrandingHistory(input))
  {
    var uses, history := TwoUses(input), StrandingHistory(input);
    var calls := ToolCallsOf(uses);
    assert uses[1..] == [uses[1]] && [uses[1]][1..] == [];
    assert calls == [ToolCall("a", "f", input)] + ToolCallsOf([uses[1]]);
    assert calls[0].id == "a" && calls[1].id == "b";
    assert calls[0] in calls && calls[1] in calls;
    assert TurnAnswers({}, history[0]) && TurnAnswers({}, history[1]) && TurnAnswers(UsesOf(history[1]), history[2]);
    ImmediateAnswersSuffice(history);
  }

  lemma StrandingMessages(input: string)
    ensures Translate(None, StrandingHistory(input))
            == [Message(User, Text("go"), [], ""), HandleAssistantMessage(Blocks(TwoUses(input))),
                ToolMessage(TwoResults[0]), ToolMessage(TwoResults[1])]
  {
    var history, uses, results := StrandingHistory(input), TwoUses(input), TwoResults;
    var a, b := ToolMessage(results[0]), ToolMessage(results[1]);
    assert results[1..] == [results[1]] && [results[1]][1..] == [];
    assert ToolMessages([results[1]]) == [b];
    assert ToolMessages(results) == [a, b];
    assert OtherBlocks([results[1]]) == OtherBlocks([]) == [];
    assert OtherBlocks(results) == OtherBlocks(results[1..]) == [];
    assert history[1..] == [history[1], history[2]] && history[1..][1..] == [history[2]] && [history[2]][1..] == [];
    assert TranslateTurns([history[2]]) == [a, b];
    assert TranslateTurns(history[1..]) == [HandleAssistantMessage(Blocks(uses))] + [a, b];
  }

  lemma FourTurns(ms: seq<Message>)
    requires |ms| == 4 && ms[3].role.Tool? && ms[2].role.Tool? && ms[1].role.Assistant? && ms[0].role.User?
    ensures Conversation(ms) == ms
  {
    assert ms[1..][1..] == [ms[2], ms[3]] && ms[1..] == [ms[1], ms[2], ms[3]] && [ms[2], ms[3]][1..] == [ms[3]];
    assert Conversation([ms[3]]) == [ms[3]];
    assert Conversation([ms[2], ms[3]]) == [ms[2]] + [ms[3]];
  }

  /** The assistant message announces its first call with the whole input, which alone is over the ceiling. */
  lemma LongCallIsTooBig(m: Message, ceiling: int, input: string)
    requires |input| > ceiling && m.toolCalls == HandleAssistantMessage(Blocks(TwoUses(input))).toolCalls
    ensures MessageBytes(m) > ceiling
  {
    var uses := TwoUses(input);
    assert uses[1..] == [uses[1]];
    assert m.toolCalls == [ToolCall("a", "f", input)] + ToolCallsOf([uses[1]]);
  }

  lemma StrandingRequest(ceiling: int, input: string)
    requires |input| > ceiling
    ensures var q := Reduced(Request(None, StrandingHistory(input), []), ceiling); PayloadBytes(q) > ceiling && Strands(q, ceiling)
  {
    var p := Request(None, StrandingHistory(input), []);
    StrandingMessages(input);
    var ms := p.messages;
    assert ms[3].role.Tool? && ms[2].role.Tool? && ms[1].role.Assistant? && ms[0].role.User?;
    var q := Reduced(p, ceiling);
    ReducedKeepsSkeleton(p, ceiling);
    FourTurns(ms);
    FourTurns(q.messages);
    LongCallIsTooBig(q.messages[1], ceiling, input);
    StrandedWhenBig(q, ceiling);
  }

  lemma StrandedWhenBig(q: Payload, ceiling: int)
    requires var ms := q.messages;
             && |ms| == 4 && ms[3].role.Tool? && ms[2].role.Tool? && ms[1].role.Assistant? && ms[0].role.User?
             && MessageBytes(ms[1]) > ceiling
    ensures PayloadBytes(q) > ceiling && Strands(q, ceiling)
  {
    var ms := q.messages;
    FourTurns(ms);
    assert RunStart(ms, 2) == 1;
    assert ms[1..][0] == ms[1];
    SuffixBytes(ms, 0, 1);
    assert ms[0..] == ms;
  }
}
