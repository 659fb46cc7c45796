/**
 Anthropic histories as Responses input items (`translateAnthropicMessagesToResponses`,
 routes/messages/responses-bridge.ts), and what the fitter keeps of them end to end.
 */
module ResponsesBridge {
  import opened Common
  import opened JsonValues
  import opened ResponsesItems
  import opened ResponsesFit
  import opened ResponsesFitLaws
  import P = ToolPairing

  /** Text as code units, and the JSON text of a structured tool result. */
  datatype Encoding = Encoding(units: string -> JsString, stringify: seq<P.Block> -> string)

  function TextItem(role: string, content: Json): Json {
    Obj([Field("role", Text(role)), Field("content", content)])
  }

  function OutputItem(enc: Encoding, b: P.Block): Json
    requires b.ToolResultBlock?
  {
    var text := match b.content case Plain(t) => t case Blocks(bs) => (enc.stringify)(bs);
    Obj([Field("type", Text("function_call_output")), Field("call_id", Str((enc.units)(b.toolUseId))),
         Field("output", Str((enc.units)(text)))])
  }

  function CallItem(enc: Encoding, b: P.Block): Json
    requires b.ToolUseBlock?
  {
    Obj([Field("type", Text("function_call")), Field("call_id", Str((enc.units)(b.id))),
         Field("name", Str((enc.units)(b.name))), Field("arguments", Str((enc.units)(b.input)))])
  }

  function OutputItems(enc: Encoding, bs: seq<P.Block>): seq<Json> {
    if bs == [] then []
    else if bs[0].ToolResultBlock? then [OutputItem(enc, bs[0])] + OutputItems(enc, bs[1..])
    else OutputItems(enc, bs[1..])
  }

  function CallItems(enc: Encoding, bs: seq<P.Block>): seq<Json> {
    if bs == [] then []
    else if bs[0].ToolUseBlock? then [CallItem(enc, bs[0])] + CallItems(enc, bs[1..])
    else CallItems(enc, bs[1..])
  }

  function InputParts(enc: Encoding, bs: seq<P.Block>): seq<Json> {
    if bs == [] then []
    else
      match bs[0]
      case TextBlock(t) =>
        [Obj([Field("type", Text("input_text")), Field("text", Str((enc.units)(t)))])] + InputParts(enc, bs[1..])
      case ImageBlock(mediaType, data) =>
        [Obj([Field("type", Text("input_image")),
              Field("image_url", Str((enc.units)("data:" + mediaType + ";base64," + data)))])] + InputParts(enc, bs[1..])
      case _ => InputParts(enc, bs[1..])
  }

  /** Text alone is one string, with images a list of parts; None when nothing is left. */
  function InputContent(enc: Encoding, bs: seq<P.Block>): Option<Json> {
    if exists b <- bs :: b.ImageBlock? then
      if InputParts(enc, bs) == [] then None else Some(Arr(InputParts(enc, bs)))
    else
      var text := Join(P.Texts(bs), "\n\n");
      if text == "" then None else Some(Str((enc.units)(text)))
  }

  function UserItems(enc: Encoding, c: P.BlockContent): seq<Json> {
    match c
    case Plain(t) => [TextItem("user", Str((enc.units)(t)))]
    case Blocks(bs) =>
      var content := InputContent(enc, P.OtherBlocks(bs));
      if content.None? then OutputItems(enc, bs) else OutputItems(enc, bs) + [TextItem("user", content.value)]
  }

  function AssistantItems(enc: Encoding, c: P.BlockContent): seq<Json> {
    match c
    case Plain(t) => [TextItem("assistant", Str((enc.units)(t)))]
    case Blocks(bs) =>
      var text := Join(P.Texts(bs), "\n\n");
      if text == "" then CallItems(enc, bs)
      else [TextItem("assistant", Str((enc.units)(text)))] + CallItems(enc, bs)
  }

  function TurnItems(enc: Encoding, t: P.Turn): seq<Json> {
    match t
    case UserTurn(c) => UserItems(enc, c)
    case AssistantTurn(c) => AssistantItems(enc, c)
  }

  function BridgeItems(enc: Encoding, history: seq<P.Turn>): seq<Json> {
    if history == [] then [] else TurnItems(enc, history[0]) + BridgeItems(enc, history[1..])
  }

  method TranslateUserMessage(enc: Encoding, c: P.BlockContent) returns (items: seq<Json>)
    ensures items == UserItems(enc, c)
  {
    if c.Plain? {
      return [TextItem("user", Str((enc.units)(c.text)))];
    }
    var content := c.blocks;
    items := [];
    var messageParts: seq<P.Block> := [];
    for k := 0 to |content|
      invariant items + OutputItems(enc, content[k..]) == OutputItems(enc, content)
      invariant messageParts + P.OtherBlocks(content[k..]) == P.OtherBlocks(content)
    {
      assert content[k..][0] == content[k] && content[k..][1..] == content[k + 1..];
      if content[k].ToolResultBlock? {
        items := items + [OutputItem(enc, content[k])];
      } else {
        messageParts := messageParts + [content[k]];
      }
    }
    assert content[|content|..] == [];
    assert items == OutputItems(enc, content) && messageParts == P.OtherBlocks(content);
    var messageContent := InputContent(enc, messageParts);
    if messageContent.Some? {
      items := items + [TextItem("user", messageContent.value)];
    }
  }

  // ----- what kind of item each is -----

  lemma TextItemIsPlain(role: string, content: Json)
    requires role == "user" || role == "assistant"
    ensures var x := TextItem(role, content);
            x.Obj? && !IsSystem(x) && !IsToolCall(x) && !IsToolCallOutput(x)
  {
    var x := TextItem(role, content);
    assert x.fields[0].key == "role" && x.fields[1].key == "content";
    assert Find(x.fields, "role") == 0 && Find(x.fields, "type") == 2;
    assert |Units("user")| == 4 && |Units("system")| == 6 && |Units("developer")| == 9 && |Units("assistant")| == 9;
    assert Units("assistant")[0] == 'a' as int && Units("developer")[0] == 'd' as int;
  }

  lemma OutputItemIsOutput(enc: Encoding, b: P.Block)
    requires b.ToolResultBlock?
    ensures var x := OutputItem(enc, b);
            && x.Obj? && !IsSystem(x)
            && (CallId(x).Some? ==> CallId(x).value == (enc.units)(b.toolUseId))
  {
    var x := OutputItem(enc, b);
    assert x.fields[0].key == "type" && x.fields[1].key == "call_id" && x.fields[2].key == "output";
    assert Find(x.fields, "role") == 3 && Find(x.fields, "call_id") == 1;
  }

  lemma CallItemIsCall(enc: Encoding, b: P.Block)
    requires b.ToolUseBlock?
    ensures var x := CallItem(enc, b);
            && x.Obj? && !IsSystem(x) && IsToolCall(x)
            && CallId(x) == (if (enc.units)(b.id) == [] then None else Some((enc.units)(b.id)))
  {
    var x := CallItem(enc, b);
    assert x.fields[0].key == "type" && x.fields[1].key == "call_id";
    assert x.fields[2].key == "name" && x.fields[3].key == "arguments";
    assert Find(x.fields, "role") == 4 && Find(x.fields, "type") == 0 && Find(x.fields, "call_id") == 1;
    var t := Units("function_call");
    assert |t| == 13 && |Units("_call")| == 5;
    assert t[8..] == Units("_call");
  }

  // ----- outputs have their calls -----

  predicate Known(enc: Encoding, uses: set<string>, output: Json) {
    CallId(output).Some? && exists u <- uses :: (enc.units)(u) == CallId(output).value
  }

  lemma {:induction false} OutputItemsKnown(enc: Encoding, uses: set<string>, bs: seq<P.Block>)
    requires forall b <- bs :: b.ToolResultBlock? ==> b.toolUseId in uses
    ensures forall x <- OutputItems(enc, bs) :: x.Obj? && !IsSystem(x) && (CallId(x).Some? ==> Known(enc, uses, x))
  {
    if bs != [] {
      assert bs[0] in bs;
      OutputItemsKnown(enc, uses, bs[1..]);
      if bs[0].ToolResultBlock? { OutputItemIsOutput(enc, bs[0]); }
    }
  }

  lemma {:induction false} CallItemsAnswer(enc: Encoding, bs: seq<P.Block>)
    ensures forall x <- CallItems(enc, bs) :: x.Obj? && !IsSystem(x) && !IsToolCallOutput(x)
    ensures forall u <- P.Ids(P.ToolCallsOf(bs)) ::
              exists y <- CallItems(enc, bs) :: IsToolCall(y) && ((enc.units)(u) != [] ==> CallId(y) == Some((enc.units)(u)))
  {
    if bs != [] {
      CallItemsAnswer(enc, bs[1..]);
      if bs[0].ToolUseBlock? {
        CallItemIsCall(enc, bs[0]);
        CallIsNoOutput(CallItem(enc, bs[0]));
        var first, rest := CallItem(enc, bs[0]), CallItems(enc, bs[1..]);
        forall u | u in P.Ids(P.ToolCallsOf(bs))
          ensures exists y <- CallItems(enc, bs) :: IsToolCall(y) && ((enc.units)(u) != [] ==> CallId(y) == Some((enc.units)(u)))
        {
          if u == bs[0].id {
            assert first in CallItems(enc, bs);
          } else {
            assert u in P.Ids(P.ToolCallsOf(bs[1..]));
            var y :| y in rest && IsToolCall(y) && ((enc.units)(u) != [] ==> CallId(y) == Some((enc.units)(u)));
            assert y in CallItems(enc, bs);
          }
        }
      }
    }
  }

  /** The items of one turn: objects without system roles, whose outputs answer uses still open, and whose calls stand for its uses. */
  lemma TurnItemsFit(enc: Encoding, uses: set<string>, t: P.Turn)
    requires P.TurnAnswers(uses, t)
    ensures forall x <- TurnItems(enc, t) ::
              x.Obj? && !IsSystem(x) && (IsToolCallOutput(x) && CallId(x).Some? ==> Known(enc, uses, x))
    ensures forall u <- P.UsesOf(t) ::
              exists y <- TurnItems(enc, t) :: IsToolCall(y) && ((enc.units)(u) != [] ==> CallId(y) == Some((enc.units)(u)))
  {
    match t
    case UserTurn(Plain(text)) => TextItemIsPlain("user", Str((enc.units)(text)));
    case UserTurn(Blocks(bs)) =>
      OutputItemsKnown(enc, uses, bs);
      var content := InputContent(enc, P.OtherBlocks(bs));
      if content.Some? { TextItemIsPlain("user", content.value); }
    case AssistantTurn(Plain(text)) => TextItemIsPlain("assistant", Str((enc.units)(text)));
    case AssistantTurn(Blocks(bs)) =>
      CallItemsAnswer(enc, bs);
      var text := Join(P.Texts(bs), "\n\n");
      TextItemIsPlain("assistant", Str((enc.units)(text)));
      AssistantCalls(enc, bs);
  }

  lemma AssistantCalls(enc: Encoding, bs: seq<P.Block>)
    ensures forall y <- CallItems(enc, bs) :: y in AssistantItems(enc, P.Blocks(bs))
    ensures forall x <- AssistantItems(enc, P.Blocks(bs)) ::
              x in CallItems(enc, bs) || x == TextItem("assistant", Str((enc.units)(Join(P.Texts(bs), "\n\n"))))
  {
  }

  ghost predicate HasCallFor(items: seq<Json>, output: Json) {
    exists y <- items :: Answers(output, y)
  }

  lemma {:induction false} BridgeOutputsAnswered(enc: Encoding, uses: set<string>, history: seq<P.Turn>, x: Json)
    requires P.Answered(uses, history) && x in BridgeItems(enc, history)
    ensures x.Obj? && !IsSystem(x)
    ensures IsToolCallOutput(x) && CallId(x).Some? ==> Known(enc, uses, x) || HasCallFor(BridgeItems(enc, history), x)
    decreases |history|
  {
    var t, rest := history[0], BridgeItems(enc, history[1..]);
    TurnItemsFit(enc, uses, t);
    if x !in TurnItems(enc, t) {
      BridgeOutputsAnswered(enc, P.NextUses(uses, t), history[1..], x);
      if IsToolCallOutput(x) && CallId(x).Some? && !HasCallFor(rest, x) {
        var u :| u in P.NextUses(uses, t) && (enc.units)(u) == CallId(x).value;
        if u in P.UsesOf(t) {
          var y :| y in TurnItems(enc, t) && IsToolCall(y) && ((enc.units)(u) != [] ==> CallId(y) == Some((enc.units)(u)));
          assert y in BridgeItems(enc, history) && Answers(x, y);
        } else {
          assert u in uses;
        }
      } else if HasCallFor(rest, x) {
        var y :| y in rest && Answers(x, y);
        assert y in BridgeItems(enc, history);
      }
    }
  }

  /** An answered history has no orphaned output after translation, and no protected items. */
  lemma BridgeHasNoOrphans(enc: Encoding, history: seq<P.Turn>)
    requires P.Answered({}, history)
    ensures var items := BridgeItems(enc, history);
            AllObjects(items) && NoOrphans(items) && Protected(items) == []
  {
    var items := BridgeItems(enc, history);
    forall x | x in items ensures x.Obj? && !IsSystem(x) && (IsToolCallOutput(x) && CallId(x).Some? ==> HasCallFor(items, x)) {
      BridgeOutputsAnswered(enc, {}, history, x);
    }
    if Protected(items) != [] {
      ProtectedMembers(items, Protected(items)[0]);
    }
  }

  /**
   End to end on the Responses side: a request translated from an answered history reaches
   the upstream with every function_call_output still accompanied by its function_call.
   */
  lemma BridgedRequestKeepsCalls(enc: Encoding, history: seq<P.Turn>, p: Json, ceiling: int)
    requires P.Answered({}, history)
    requires ValidPayload(p) && HasItems(p) && Items(p) == BridgeItems(enc, history)
    ensures HasItems(Fitted(p, ceiling)) && NoOrphans(Items(Fitted(p, ceiling)))
  {
    BridgeHasNoOrphans(enc, history);
    FittingCreatesNoOrphan(p, ceiling);
  }
}
