/**
 What bridged items carry of a history (routes/messages/responses-bridge.ts), field by field
 and by position: the counterpart of `TurnContents` for Responses requests.
 */
module BridgeContents {
  import opened Common
  import opened JsonValues
  import opened ResponsesItems
  import opened ResponsesBridge
  import T = TurnContents
  import P = ToolPairing

  predicate Reads(item: Json, key: string, text: JsString) {
    Get(item, key) == Some(Str(text))
  }

  // ----- one item -----

  predicate IsOutputOf(enc: Encoding, b: P.Block, item: Json) {
    && b.ToolResultBlock?
    && Reads(item, "type", Units("function_call_output")) && Reads(item, "call_id", (enc.units)(b.toolUseId))
    && (b.content.Plain? ==> Reads(item, "output", (enc.units)(b.content.text)))
    && (b.content.Blocks? ==> Reads(item, "output", (enc.units)((enc.stringify)(b.content.blocks))))
  }

  predicate IsCallOf(enc: Encoding, b: P.Block, item: Json) {
    && b.ToolUseBlock?
    && Reads(item, "type", Units("function_call")) && Reads(item, "call_id", (enc.units)(b.id))
    && Reads(item, "name", (enc.units)(b.name)) && Reads(item, "arguments", (enc.units)(b.input))
  }

  predicate IsPartOf(enc: Encoding, b: P.Block, part: Json) {
    match b
    case TextBlock(text) => Reads(part, "type", Units("input_text")) && Reads(part, "text", (enc.units)(text))
    case ImageBlock(mediaType, data) =>
      Reads(part, "type", Units("input_image")) && Reads(part, "image_url", (enc.units)("data:" + mediaType + ";base64," + data))
    case _ => false
  }

  function OutputOf(enc: Encoding): (P.Block, Json) -> bool { (b: P.Block, item: Json) => IsOutputOf(enc, b, item) }

  function CallOf(enc: Encoding): (P.Block, Json) -> bool { (b: P.Block, item: Json) => IsCallOf(enc, b, item) }

  function PartOf(enc: Encoding): (P.Block, Json) -> bool { (b: P.Block, part: Json) => IsPartOf(enc, b, part) }

  /** A message item: a role, a content and no type. */
  predicate IsMessage(item: Json, role: string, content: Json) {
    Reads(item, "role", Units(role)) && Get(item, "content") == Some(content) && Get(item, "type") == None
  }

  lemma OutputItemReads(enc: Encoding, b: P.Block)
    requires b.ToolResultBlock?
    ensures IsOutputOf(enc, b, OutputItem(enc, b))
  {
    var f := OutputItem(enc, b).fields;
    assert f[0].key == "type" && f[1].key == "call_id" && f[2].key == "output";
    assert Find(f, "type") == 0 && Find(f, "call_id") == 1 && Find(f, "output") == 2;
  }

  lemma CallItemReads(enc: Encoding, b: P.Block)
    requires b.ToolUseBlock?
    ensures IsCallOf(enc, b, CallItem(enc, b))
  {
    var f := CallItem(enc, b).fields;
    assert f[0].key == "type" && f[1].key == "call_id" && f[2].key == "name" && f[3].key == "arguments";
    assert Find(f, "type") == 0 && Find(f, "call_id") == 1 && Find(f, "name") == 2 && Find(f, "arguments") == 3;
  }

  lemma TextItemReads(role: string, content: Json)
    ensures IsMessage(TextItem(role, content), role, content)
  {
    var f := TextItem(role, content).fields;
    assert f[0].key == "role" && f[1].key == "content";
    assert Find(f, "role") == 0 && Find(f, "content") == 1 && Find(f, "type") == 2;
  }

  lemma TwoFieldsRead(a: string, b: string, v: Json, w: Json)
    requires a != b
    ensures Get(Obj([Field(a, v), Field(b, w)]), a) == Some(v) && Get(Obj([Field(a, v), Field(b, w)]), b) == Some(w)
  {
    var f := [Field(a, v), Field(b, w)];
    assert f[0].key == a && f[1].key == b;
    assert Find(f, a) == 0 && Find(f, b) == 1;
  }

  // ----- all items of one kind -----

  lemma {:induction false} OutputsFilter(enc: Encoding, bs: seq<P.Block>)
    ensures Filtered(bs, T.IsResult, OutputOf(enc), OutputItems(enc, bs))
  {
    if bs == [] {
      FilteredNone(T.IsResult, OutputOf(enc));
    } else {
      OutputsFilter(enc, bs[1..]);
      var head := if bs[0].ToolResultBlock? then [OutputItem(enc, bs[0])] else [];
      if bs[0].ToolResultBlock? { OutputItemReads(enc, bs[0]); }
      FilteredMore(bs, T.IsResult, OutputOf(enc), head, OutputItems(enc, bs[1..]));
      assert OutputItems(enc, bs) == head + OutputItems(enc, bs[1..]);
    }
  }

  lemma {:induction false} CallsFilter(enc: Encoding, bs: seq<P.Block>)
    ensures Filtered(bs, T.IsUse, CallOf(enc), CallItems(enc, bs))
  {
    if bs == [] {
      FilteredNone(T.IsUse, CallOf(enc));
    } else {
      CallsFilter(enc, bs[1..]);
      var head := if bs[0].ToolUseBlock? then [CallItem(enc, bs[0])] else [];
      if bs[0].ToolUseBlock? { CallItemReads(enc, bs[0]); }
      FilteredMore(bs, T.IsUse, CallOf(enc), head, CallItems(enc, bs[1..]));
      assert CallItems(enc, bs) == head + CallItems(enc, bs[1..]);
    }
  }

  lemma FirstPart(enc: Encoding, bs: seq<P.Block>) returns (head: seq<Json>)
    requires bs != []
    ensures InputParts(enc, bs) == head + InputParts(enc, bs[1..])
    ensures if T.IsPart(bs[0]) then |head| == 1 && IsPartOf(enc, bs[0], head[0]) else head == []
  {
    head := [];
    if bs[0].TextBlock? {
      head := [Obj([Field("type", Text("input_text")), Field("text", Str((enc.units)(bs[0].text)))])];
      TwoFieldsRead("type", "text", Text("input_text"), Str((enc.units)(bs[0].text)));
    } else if bs[0].ImageBlock? {
      var url := Str((enc.units)("data:" + bs[0].mediaType + ";base64," + bs[0].data));
      head := [Obj([Field("type", Text("input_image")), Field("image_url", url)])];
      TwoFieldsRead("type", "image_url", Text("input_image"), url);
    }
  }

  lemma {:induction false} PartsFilter(enc: Encoding, bs: seq<P.Block>)
    ensures Filtered(bs, T.IsPart, PartOf(enc), InputParts(enc, bs))
  {
    if bs == [] {
      FilteredNone(T.IsPart, PartOf(enc));
    } else {
      PartsFilter(enc, bs[1..]);
      var head := FirstPart(enc, bs);
      FilteredMore(bs, T.IsPart, PartOf(enc), head, InputParts(enc, bs[1..]));
    }
  }

  lemma SomethingIsKept(enc: Encoding, bs: seq<P.Block>)
    requires exists b <- bs :: T.IsPart(b)
    ensures InputParts(enc, bs) != []
  {
    PartsFilter(enc, bs);
    var at :| Selects(bs, T.IsPart, at) && Matches(bs, PartOf(enc), at, InputParts(enc, bs));
    var b :| b in bs && T.IsPart(b);
    var i :| 0 <= i < |bs| && bs[i] == b;
    assert i in at;
  }

  // ----- one turn -----

  /** The content of a user message: with an image one part for every text and image; without, all texts as one string. */
  ghost predicate SaysUser(enc: Encoding, bs: seq<P.Block>, content: Json) {
    if exists b <- bs :: T.IsPicture(b) then content.Arr? && CarriesParts(enc, bs, content.items)
    else exists text :: text != "" && T.SaysTexts(bs, text) && content == Str((enc.units)(text))
  }

  ghost predicate CarriesParts(enc: Encoding, bs: seq<P.Block>, parts: seq<Json>) {
    Filtered(bs, T.IsPart, PartOf(enc), parts)
  }

  ghost predicate CarriesOutputs(enc: Encoding, bs: seq<P.Block>, items: seq<Json>) {
    Filtered(bs, T.IsResult, OutputOf(enc), items)
  }

  ghost predicate CarriesCalls(enc: Encoding, bs: seq<P.Block>, items: seq<Json>) {
    Filtered(bs, T.IsUse, CallOf(enc), items)
  }

  /** One output for every tool result, in order, and then one message with everything else, unless there is nothing. */
  ghost predicate ConveysUserItems(enc: Encoding, c: P.BlockContent, items: seq<Json>) {
    match c
    case Plain(text) => |items| == 1 && IsMessage(items[0], "user", Str((enc.units)(text)))
    case Blocks(bs) =>
      || (CarriesOutputs(enc, bs, items) && (forall b <- bs :: !T.IsPicture(b)) && T.SaysTexts(bs, ""))
      || (items != [] && CarriesOutputs(enc, bs, items[..|items| - 1])
          && var message := items[|items| - 1];
             Get(message, "content").Some?
             && IsMessage(message, "user", Get(message, "content").value) && SaysUser(enc, bs, Get(message, "content").value))
  }

  /** One message with the turn's texts, unless they are empty, and then one call for every tool use, in order. */
  ghost predicate ConveysAssistantItems(enc: Encoding, c: P.BlockContent, items: seq<Json>) {
    match c
    case Plain(text) => |items| == 1 && IsMessage(items[0], "assistant", Str((enc.units)(text)))
    case Blocks(bs) =>
      || (CarriesCalls(enc, bs, items) && T.SaysTexts(bs, ""))
      || (items != [] && CarriesCalls(enc, bs, items[1..])
          && exists text :: text != "" && T.SaysTexts(bs, text) && IsMessage(items[0], "assistant", Str((enc.units)(text))))
  }

  lemma {:induction false} OthersCarryTheSame(enc: Encoding, bs: seq<P.Block>)
    ensures InputParts(enc, P.OtherBlocks(bs)) == InputParts(enc, bs)
  {
    if bs != [] {
      OthersCarryTheSame(enc, bs[1..]);
      var rest := P.OtherBlocks(bs[1..]);
      if !bs[0].ToolResultBlock? {
        assert P.OtherBlocks(bs)[0] == bs[0] && P.OtherBlocks(bs)[1..] == rest;
      }
    }
  }

  /** The content of the others is the content of all blocks. */
  lemma OthersContent(enc: Encoding, bs: seq<P.Block>)
    ensures InputContent(enc, P.OtherBlocks(bs)) == InputContent(enc, bs)
  {
    T.OthersSayTheSame(bs);
    OthersCarryTheSame(enc, bs);
  }

  lemma ContentSays(enc: Encoding, bs: seq<P.Block>)
    ensures InputContent(enc, bs).Some? ==> SaysUser(enc, bs, InputContent(enc, bs).value)
    ensures InputContent(enc, bs).None? ==> (forall b <- bs :: !T.IsPicture(b)) && T.SaysTexts(bs, "")
  {
    T.JoinedTexts(bs);
    PartsFilter(enc, bs);
    if exists b <- bs :: T.IsPicture(b) {
      var b :| b in bs && T.IsPicture(b);
      assert T.IsPart(b);
      SomethingIsKept(enc, bs);
    }
  }

  /** Nothing of a user turn is lost, added or moved. */
  lemma UserItemsConvey(enc: Encoding, c: P.BlockContent)
    ensures ConveysUserItems(enc, c, UserItems(enc, c))
  {
    match c
    case Plain(text) => TextItemReads("user", Str((enc.units)(text)));
    case Blocks(bs) =>
      OutputsFilter(enc, bs);
      OthersContent(enc, bs);
      ContentSays(enc, bs);
      var content := InputContent(enc, bs);
      if content.Some? {
        TextItemReads("user", content.value);
        var items := OutputItems(enc, bs) + [TextItem("user", content.value)];
        assert items[..|items| - 1] == OutputItems(enc, bs);
      }
  }

  lemma AssistantItemsConvey(enc: Encoding, c: P.BlockContent)
    ensures ConveysAssistantItems(enc, c, AssistantItems(enc, c))
  {
    match c
    case Plain(text) => TextItemReads("assistant", Str((enc.units)(text)));
    case Blocks(bs) =>
      CallsFilter(enc, bs);
      T.JoinedTexts(bs);
      var text := Join(P.Texts(bs), "\n\n");
      if text != "" {
        TextItemReads("assistant", Str((enc.units)(text)));
        assert ([TextItem("assistant", Str((enc.units)(text)))] + CallItems(enc, bs))[1..] == CallItems(enc, bs);
      }
  }

  // ----- a whole history -----

  ghost predicate ConveysTurnItems(enc: Encoding, t: P.Turn, items: seq<Json>) {
    match t
    case UserTurn(c) => ConveysUserItems(enc, c, items)
    case AssistantTurn(c) => ConveysAssistantItems(enc, c, items)
  }

  ghost predicate ConveysHistoryItems(enc: Encoding, history: seq<P.Turn>, parts: seq<seq<Json>>) {
    |parts| == |history| && forall t :: 0 <= t < |history| ==> ConveysTurnItems(enc, history[t], parts[t])
  }

  /** The bridged input is the items of every turn in order, each carrying what its turn says. */
  lemma {:induction false} BridgeConveysHistory(enc: Encoding, history: seq<P.Turn>) returns (parts: seq<seq<Json>>)
    ensures BridgeItems(enc, history) == Flat(parts) && ConveysHistoryItems(enc, history, parts)
    decreases |history|
  {
    if history == [] {
      parts := [];
    } else {
      var rest := BridgeConveysHistory(enc, history[1..]);
      var head := TurnItems(enc, history[0]);
      parts := [head] + rest;
      UserItemsConvey(enc, history[0].content);
      AssistantItemsConvey(enc, history[0].content);
      FlatMore(head, rest);
      forall t | 0 <= t < |history| ensures ConveysTurnItems(enc, history[t], parts[t]) {
        if t > 0 { assert ConveysTurnItems(enc, history[1..][t - 1], rest[t - 1]); }
      }
    }
  }
}
