/**
 Fitting a chat-completions payload under a byte ceiling (lib/context-manager.ts).
 Strings stand for sequences of UTF-16 code units; only their lengths matter here.
 */
module ContextFit {
  import opened Common

  const MAX_PAYLOAD_BYTES := 5_000_000
  const UNKNOWN_MODEL_PAYLOAD_BYTES := 1_900_000
  const PRUNE_PROTECT_BYTES := 200_000
  const PRUNE_MINIMUM_BYTES := 50_000
  const TOOL_OUTPUT_HARD_CAP := 100_000
  const TOKEN_RESERVE := 8_000
  const PRUNED_PLACEHOLDER := "[content pruned \U{2014} tool output was too old]"
  const TOOL_TRUNCATED_SUFFIX := "\n\n[\U{2026}tool output truncated to fit context]"
  const IMAGE_STRIPPED_PLACEHOLDER := "[image removed to save context]"

  datatype Role = User | Assistant | System | Tool | Developer
  datatype Part = TextPart(text: string) | ImagePart(url: string)
  datatype Content = NoContent | Text(text: string) | Parts(parts: seq<Part>)
  datatype ToolCall = ToolCall(id: string, name: string, arguments: string)

  /** An absent tool_calls list is empty; an absent tool_call_id is "". */
  datatype Message = Message(role: Role, content: Content, toolCalls: seq<ToolCall>, toolCallId: string)

  /** A tool definition enters only through the length of its JSON text. */
  datatype Payload = Payload(messages: seq<Message>, toolLengths: seq<nat>)

  // ----- byte estimates -----

  function PartBytes(p: Part): nat {
    match p
    case TextPart(t) => |t| + 20
    case ImagePart(url) => |url| + 40
  }

  function PartsBytes(ps: seq<Part>): nat {
    if ps == [] then 0 else PartBytes(ps[0]) + PartsBytes(ps[1..])
  }

  function CallsBytes(cs: seq<ToolCall>): nat {
    if cs == [] then 0 else |cs[0].name| + |cs[0].arguments| + 80 + CallsBytes(cs[1..])
  }

  function ContentBytes(c: Content): nat {
    match c
    case NoContent => 0
    case Text(t) => |t|
    case Parts(ps) => PartsBytes(ps)
  }

  function MessageBytes(m: Message): nat {
    40 + ContentBytes(m.content) + CallsBytes(m.toolCalls) + (if m.toolCallId == "" then 0 else |m.toolCallId| + 20)
  }

  function MessagesBytes(ms: seq<Message>): nat {
    if ms == [] then 0 else MessageBytes(ms[0]) + MessagesBytes(ms[1..])
  }

  function ToolsBytes(lengths: seq<nat>): nat {
    if lengths == [] then 0 else lengths[0] + 20 + ToolsBytes(lengths[1..])
  }

  function PayloadBytes(p: Payload): nat {
    200 + MessagesBytes(p.messages) + ToolsBytes(p.toolLengths)
  }

  lemma {:induction false} MessagesBytesConcat(a: seq<Message>, b: seq<Message>)
    ensures MessagesBytes(a + b) == MessagesBytes(a) + MessagesBytes(b)
  {
    if a == [] {
      assert a + b == b;
    } else {
      MessagesBytesConcat(a[1..], b);
      assert (a + b)[1..] == a[1..] + b;
    }
  }

  method EstimateMessageBytes(msg: Message) returns (bytes: nat)
    ensures bytes == MessageBytes(msg)
  {
    bytes := 40;
    match msg.content {
      case NoContent =>
      case Text(t) => bytes := bytes + |t|;
      case Parts(ps) =>
        for i := 0 to |ps|
          invariant bytes + PartsBytes(ps[i..]) == 40 + PartsBytes(ps)
        {
          assert ps[i..][1..] == ps[i + 1..];
          bytes := bytes + PartBytes(ps[i]);
        }
    }
    ghost var soFar := bytes;
    for i := 0 to |msg.toolCalls|
      invariant bytes + CallsBytes(msg.toolCalls[i..]) == soFar + CallsBytes(msg.toolCalls)
    {
      assert msg.toolCalls[i..][1..] == msg.toolCalls[i + 1..];
      bytes := bytes + |msg.toolCalls[i].name| + |msg.toolCalls[i].arguments| + 80;
    }
    if msg.toolCallId != "" {
      bytes := bytes + |msg.toolCallId| + 20;
    }
  }

  method EstimatePayloadBytes(payload: Payload) returns (bytes: nat)
    ensures bytes == PayloadBytes(payload)
  {
    bytes := 200;
    for i := 0 to |payload.messages|
      invariant bytes + MessagesBytes(payload.messages[i..]) == 200 + MessagesBytes(payload.messages)
    {
      assert payload.messages[i..][1..] == payload.messages[i + 1..];
      var b := EstimateMessageBytes(payload.messages[i]);
      bytes := bytes + b;
    }
    ghost var soFar := bytes;
    for i := 0 to |payload.toolLengths|
      invariant bytes + ToolsBytes(payload.toolLengths[i..]) == soFar + ToolsBytes(payload.toolLengths)
    {
      assert payload.toolLengths[i..][1..] == payload.toolLengths[i + 1..];
      bytes := bytes + payload.toolLengths[i] + 20;
    }
  }

  // ----- stage 1: prune old tool outputs -----

  function ToolBytes(ms: seq<Message>): nat {
    if ms == [] then 0 else (if ms[0].role.Tool? then MessageBytes(ms[0]) else 0) + ToolBytes(ms[1..])
  }

  /** The tool messages from position `i` on take up the protected budget. */
  predicate BudgetSpent(ms: seq<Message>, i: nat)
    requires i <= |ms|
  {
    ToolBytes(ms[i..]) >= PRUNE_PROTECT_BYTES
  }

  /** A tool message is old when the tool messages after it already take up the protected budget. */
  predicate IsOldTool(ms: seq<Message>, i: nat)
    requires i < |ms|
  {
    ms[i].role.Tool? && BudgetSpent(ms, i + 1)
  }

  /** Bytes of the old tool messages from position `i` on. */
  function OldToolBytes(ms: seq<Message>, i: nat): nat
    requires i <= |ms|
    decreases |ms| - i
  {
    if i == |ms| then 0 else (if IsOldTool(ms, i) then MessageBytes(ms[i]) else 0) + OldToolBytes(ms, i + 1)
  }

  function PruneToolOutputs(p: Payload): Payload {
    var ms := p.messages;
    if OldToolBytes(ms, 0) < PRUNE_MINIMUM_BYTES then p
    else p.(messages := seq(|ms|, i requires 0 <= i < |ms| =>
      if IsOldTool(ms, i) then ms[i].(content := Text(PRUNED_PLACEHOLDER)) else ms[i]))
  }

  method RunPruneToolOutputs(payload: Payload) returns (r: Payload)
    ensures r == PruneToolOutputs(payload)
  {
    var messages := payload.messages;
    var protectedBytes, prunedBytes := 0, 0;
    var prunedIndices: seq<nat> := [];
    var i := |messages|;
    while i > 0
      invariant 0 <= i <= |messages|
      invariant protectedBytes < PRUNE_PROTECT_BYTES ==> protectedBytes == ToolBytes(messages[i..])
      invariant protectedBytes >= PRUNE_PROTECT_BYTES ==> BudgetSpent(messages, i)
      invariant prunedBytes == OldToolBytes(messages, i)
      invariant forall k <- prunedIndices :: i <= k < |messages| && IsOldTool(messages, k)
      invariant forall k :: i <= k < |messages| && IsOldTool(messages, k) ==> k in prunedIndices
    {
      i := i - 1;
      assert messages[i..][0] == messages[i] && messages[i..][1..] == messages[i + 1..];
      var msg := messages[i];
      if !msg.role.Tool? {
        continue;
      }
      var msgBytes := EstimateMessageBytes(msg);
      if protectedBytes < PRUNE_PROTECT_BYTES {
        protectedBytes := protectedBytes + msgBytes;
      } else {
        prunedBytes := prunedBytes + msgBytes;
        prunedIndices := prunedIndices + [i];
      }
    }
    if prunedBytes < PRUNE_MINIMUM_BYTES {
      return payload;
    }
    var newMessages := messages;
    for k := 0 to |prunedIndices|
      invariant |newMessages| == |messages|
      invariant forall m :: 0 <= m < |messages| ==>
        newMessages[m] == if m in prunedIndices[..k] then messages[m].(content := Text(PRUNED_PLACEHOLDER)) else messages[m]
    {
      var idx := prunedIndices[k];
      assert idx in prunedIndices;
      assert prunedIndices[..k + 1] == prunedIndices[..k] + [idx];
      newMessages := newMessages[idx := newMessages[idx].(content := Text(PRUNED_PLACEHOLDER))];
    }
    assert prunedIndices[..|prunedIndices|] == prunedIndices;
    r := payload.(messages := newMessages);
  }

  lemma {:induction false} ToolBytesShrink(ms: seq<Message>, i: nat, j: nat)
    requires i <= j <= |ms|
    ensures ToolBytes(ms[i..]) >= ToolBytes(ms[j..])
    decreases j - i
  {
    if i < j {
      assert ms[i..][1..] == ms[i + 1..];
      ToolBytesShrink(ms, i + 1, j);
    }
  }

  /** The latest position, up to `n`, from which the tool messages fill the protected budget; 0 if there is none. */
  function PruneBoundary(ms: seq<Message>, n: nat): (b: nat)
    requires n <= |ms|
    ensures b <= n
    ensures b > 0 ==> BudgetSpent(ms, b)
    ensures forall i :: b < i <= n ==> !BudgetSpent(ms, i)
  {
    if n == 0 || BudgetSpent(ms, n) then n else PruneBoundary(ms, n - 1)
  }

  /** Pruning takes exactly the tool messages before that position. */
  lemma PruningHasBoundary(ms: seq<Message>, i: nat)
    requires i < |ms|
    ensures IsOldTool(ms, i) <==> ms[i].role.Tool? && i < PruneBoundary(ms, |ms|)
  {
    OldBeforeBoundary(ms, PruneBoundary(ms, |ms|), i);
  }

  lemma OldBeforeBoundary(ms: seq<Message>, b: nat, i: nat)
    requires b <= |ms| && i < |ms|
    requires b > 0 ==> BudgetSpent(ms, b)
    requires forall k :: b < k <= |ms| ==> !BudgetSpent(ms, k)
    ensures IsOldTool(ms, i) <==> ms[i].role.Tool? && i < b
  {
    if i < b { ToolBytesShrink(ms, i + 1, b); }
  }

  /** Content bytes of the old tool messages from position `i` on, beyond those of their placeholders. */
  function PruneGain(ms: seq<Message>, i: nat): int
    requires i <= |ms|
    decreases |ms| - i
  {
    if i == |ms| then 0
    else (if IsOldTool(ms, i) then ContentBytes(ms[i].content) - |PRUNED_PLACEHOLDER| else 0) + PruneGain(ms, i + 1)
  }

  lemma {:induction false} PrunedBytes(ms: seq<Message>, r: seq<Message>, i: nat)
    requires |r| == |ms| && i <= |ms|
    requires forall k :: 0 <= k < |ms| ==>
               r[k] == if IsOldTool(ms, k) then ms[k].(content := Text(PRUNED_PLACEHOLDER)) else ms[k]
    ensures MessagesBytes(r[i..]) == MessagesBytes(ms[i..]) - PruneGain(ms, i)
    decreases |ms| - i
  {
    if i < |ms| {
      PrunedBytes(ms, r, i + 1);
      assert ms[i..][1..] == ms[i + 1..] && r[i..][1..] == r[i + 1..];
    }
  }

  /** Bytes that pruning reclaims: nothing below the minimum, and less than nothing when placeholders outweigh contents. */
  function PruneReclaims(p: Payload): int {
    if OldToolBytes(p.messages, 0) < PRUNE_MINIMUM_BYTES then 0 else PruneGain(p.messages, 0)
  }

  lemma PruningReclaimsExactly(p: Payload)
    ensures PayloadBytes(PruneToolOutputs(p)) == PayloadBytes(p) - PruneReclaims(p)
  {
    var r := PruneToolOutputs(p).messages;
    assert p.messages[0..] == p.messages && r[0..] == r;
    if OldToolBytes(p.messages, 0) >= PRUNE_MINIMUM_BYTES {
      PrunedBytes(p.messages, r, 0);
    }
  }

  // ----- stages 2 and 2b: strip images -----

  function StripPart(p: Part): Part {
    if p.ImagePart? then TextPart(IMAGE_STRIPPED_PLACEHOLDER) else p
  }

  function StripParts(ps: seq<Part>): seq<Part> {
    seq(|ps|, i requires 0 <= i < |ps| => StripPart(ps[i]))
  }

  function StripMessage(m: Message): Message {
    if m.content.Parts? then m.(content := Parts(StripParts(m.content.parts))) else m
  }

  function StripBefore(p: Payload, boundary: int): Payload {
    p.(messages := seq(|p.messages|, i requires 0 <= i < |p.messages| =>
      if i < boundary then StripMessage(p.messages[i]) else p.messages[i]))
  }

  /** The last four messages keep their images. */
  function StripOldImages(p: Payload): Payload { StripBefore(p, |p.messages| - 4) }

  function StripAllImages(p: Payload): Payload { StripBefore(p, |p.messages|) }

  method RunStripOldImages(payload: Payload) returns (r: Payload)
    ensures r == StripOldImages(payload)
  {
    var messages := payload.messages;
    var newMessages := messages;
    var protectBoundary := if |messages| >= 4 then |messages| - 4 else 0;
    for i := 0 to protectBoundary
      invariant |newMessages| == |messages|
      invariant forall k :: 0 <= k < |messages| ==> newMessages[k] == if k < i then StripMessage(messages[k]) else messages[k]
    {
      var msg := messages[i];
      if !msg.content.Parts? {
        continue;
      }
      var parts := msg.content.parts;
      if exists p <- parts :: p.ImagePart? {
        newMessages := newMessages[i := msg.(content := Parts(StripParts(parts)))];
      } else {
        assert StripParts(parts) == parts;
      }
    }
    r := payload.(messages := newMessages);
  }

  /** Bytes that stripping these parts reclaims. */
  function ImageGain(ps: seq<Part>): int {
    if ps == [] then 0
    else (if ps[0].ImagePart? then |ps[0].url| + 20 - |IMAGE_STRIPPED_PLACEHOLDER| else 0) + ImageGain(ps[1..])
  }

  function ImagesGain(ms: seq<Message>): int {
    if ms == [] then 0
    else (if ms[0].content.Parts? then ImageGain(ms[0].content.parts) else 0) + ImagesGain(ms[1..])
  }

  lemma {:induction false} StrippedPartsBytes(ps: seq<Part>)
    ensures PartsBytes(StripParts(ps)) == PartsBytes(ps) - ImageGain(ps)
  {
    if ps != [] {
      StrippedPartsBytes(ps[1..]);
      assert StripParts(ps)[1..] == StripParts(ps[1..]);
    }
  }

  lemma {:induction false} StrippedMessagesBytes(ms: seq<Message>, r: seq<Message>)
    requires |r| == |ms| && forall i :: 0 <= i < |ms| ==> r[i] == StripMessage(ms[i])
    ensures MessagesBytes(r) == MessagesBytes(ms) - ImagesGain(ms)
  {
    if ms != [] {
      StrippedMessagesBytes(ms[1..], r[1..]);
      if ms[0].content.Parts? {
        StrippedPartsBytes(ms[0].content.parts);
      }
    }
  }

  /** Stripping leaves no image before its boundary and nothing changed after it. */
  lemma StrippedMessages(p: Payload, boundary: nat)
    requires boundary <= |p.messages|
    ensures var r := StripBefore(p, boundary);
            && r.messages[boundary..] == p.messages[boundary..]
            && forall m <- r.messages[..boundary] :: HasNoImage(m)
  {
  }

  predicate HasNoImage(m: Message) {
    m.content.Parts? ==> forall part <- m.content.parts :: part.TextPart?
  }

  /** It reclaims exactly the gain of the messages before the boundary. */
  lemma StrippingReclaimsExactly(p: Payload, boundary: nat)
    requires boundary <= |p.messages|
    ensures PayloadBytes(StripBefore(p, boundary)) == PayloadBytes(p) - ImagesGain(p.messages[..boundary])
  {
    var ms, r := p.messages, StripBefore(p, boundary).messages;
    StrippedMessagesBytes(ms[..boundary], r[..boundary]);
    assert r[boundary..] == ms[boundary..];
    BytesAround(ms, boundary);
    BytesAround(r, boundary);
  }

  lemma BytesAround(ms: seq<Message>, n: nat)
    requires n <= |ms|
    ensures MessagesBytes(ms) == MessagesBytes(ms[..n]) + MessagesBytes(ms[n..])
  {
    assert ms == ms[..n] + ms[n..];
    MessagesBytesConcat(ms[..n], ms[n..]);
  }

  // ----- stage 2c: cap tool outputs -----

  function CapMessage(m: Message): Message {
    if m.role.Tool? && m.content.Text? && |m.content.text| > TOOL_OUTPUT_HARD_CAP
    then m.(content := Text(m.content.text[..TOOL_OUTPUT_HARD_CAP] + TOOL_TRUNCATED_SUFFIX)) else m
  }

  function TruncateOversizedToolOutputs(p: Payload): Payload {
    p.(messages := seq(|p.messages|, i requires 0 <= i < |p.messages| => CapMessage(p.messages[i])))
  }

  /** Bytes that capping reclaims, less than nothing where the suffix outweighs what is cut. */
  function CapGain(ms: seq<Message>): int {
    if ms == [] then 0
    else (if CapMessage(ms[0]) == ms[0] then 0 else |ms[0].content.text| - TOOL_OUTPUT_HARD_CAP - |TOOL_TRUNCATED_SUFFIX|)
         + CapGain(ms[1..])
  }

  lemma CappedBytes(m: Message)
    ensures MessageBytes(CapMessage(m)) == MessageBytes(m) - CapGain([m])
  {
    assert [m][1..] == [];
  }

  lemma {:induction false} CappedMessagesBytes(ms: seq<Message>, r: seq<Message>)
    requires |r| == |ms| && forall i :: 0 <= i < |ms| ==> r[i] == CapMessage(ms[i])
    ensures MessagesBytes(r) == MessagesBytes(ms) - CapGain(ms)
  {
    if ms != [] {
      CappedBytes(ms[0]);
      assert [ms[0]][1..] == [];
      CappedMessagesBytes(ms[1..], r[1..]);
    }
  }

  lemma CappingReclaimsExactly(p: Payload)
    ensures PayloadBytes(TruncateOversizedToolOutputs(p)) == PayloadBytes(p) - CapGain(p.messages)
  {
    CappedMessagesBytes(p.messages, TruncateOversizedToolOutputs(p).messages);
  }

  function OversizeCapped(ms: seq<Message>): nat {
    if ms == [] then 0 else (if CapMessage(ms[0]) == ms[0] then 0 else 1) + OversizeCapped(ms[1..])
  }

  /** Bytes of the tool outputs beyond the cap. */
  function OverCap(ms: seq<Message>): nat {
    if ms == [] then 0
    else (if CapMessage(ms[0]) == ms[0] then 0 else |ms[0].content.text| - TOOL_OUTPUT_HARD_CAP) + OverCap(ms[1..])
  }

  lemma {:induction false} CapGainSplit(ms: seq<Message>)
    ensures CapGain(ms) == OverCap(ms) - OversizeCapped(ms) * |TOOL_TRUNCATED_SUFFIX|
  {
    if ms != [] {
      CapGainSplit(ms[1..]);
      var n := OversizeCapped(ms[1..]);
      assert (1 + n) * |TOOL_TRUNCATED_SUFFIX| == |TOOL_TRUNCATED_SUFFIX| + n * |TOOL_TRUNCATED_SUFFIX|;
    }
  }

  /** Capping makes a payload bigger if and only if its outputs go beyond the cap by less than the suffixes they get. */
  lemma CappingGrowsExactly(p: Payload)
    ensures PayloadBytes(TruncateOversizedToolOutputs(p)) > PayloadBytes(p)
            <==> OverCap(p.messages) < OversizeCapped(p.messages) * |TOOL_TRUNCATED_SUFFIX|
  {
    CappingReclaimsExactly(p);
    CapGainSplit(p.messages);
  }

  // ----- stage 3: drop the oldest conversation messages -----

  predicate IsSystem(m: Message) { m.role.System? || m.role.Developer? }

  function Systems(ms: seq<Message>): seq<Message> {
    if ms == [] then []
    else if IsSystem(ms[0]) then [ms[0]] + Systems(ms[1..])
    else Systems(ms[1..])
  }

  function Conversation(ms: seq<Message>): seq<Message> {
    if ms == [] then []
    else if IsSystem(ms[0]) then Conversation(ms[1..])
    else [ms[0]] + Conversation(ms[1..])
  }

  lemma {:induction false} SplitBytes(ms: seq<Message>)
    ensures MessagesBytes(ms) == MessagesBytes(Systems(ms)) + MessagesBytes(Conversation(ms))
  {
    if ms != [] {
      SplitBytes(ms[1..]);
      MessagesBytesConcat([ms[0]], Systems(ms[1..]));
      MessagesBytesConcat([ms[0]], Conversation(ms[1..]));
    }
  }

  lemma {:induction false} SplitMembers(ms: seq<Message>)
    ensures forall m <- Systems(ms) :: IsSystem(m)
    ensures forall m <- Conversation(ms) :: !IsSystem(m)
  {
    if ms != [] { SplitMembers(ms[1..]); }
  }

  /** Bytes of everything that is never dropped. */
  function BaseBytes(p: Payload): nat {
    200 + MessagesBytes(Systems(p.messages)) + ToolsBytes(p.toolLengths)
  }

  /** How many messages the first loop drops. */
  function OversizeCount(base: nat, conv: seq<Message>, ceiling: int): (k: nat)
    ensures k <= |conv|
  {
    if |conv| > 2 && base + MessagesBytes(conv) > ceiling then 1 + OversizeCount(base, conv[1..], ceiling) else 0
  }

  /** How many leading tool messages the second loop drops. */
  function StrayToolCount(conv: seq<Message>): (k: nat)
    ensures k <= |conv|
  {
    if |conv| > 2 && conv[0].role.Tool? then 1 + StrayToolCount(conv[1..]) else 0
  }

  function DroppedCount(p: Payload, ceiling: int): (k: nat)
    ensures k <= |Conversation(p.messages)|
  {
    var conv := Conversation(p.messages);
    var k := OversizeCount(BaseBytes(p), conv, ceiling);
    k + StrayToolCount(conv[k..])
  }

  function DropOldMessages(p: Payload, ceiling: int): Payload {
    p.(messages := Systems(p.messages) + Conversation(p.messages)[DroppedCount(p, ceiling)..])
  }

  /** The kept conversation and its byte sizes, shortened together from the front. */
  ghost predicate InStep(conv: seq<Message>, convBytes: seq<nat>) {
    |convBytes| == |conv| && forall i :: 0 <= i < |conv| ==> convBytes[i] == MessageBytes(conv[i])
  }

  method DropOversize(conv: seq<Message>, sizes: seq<nat>, baseBytes: nat, ceiling: int)
    returns (kept: seq<Message>, convBytes: seq<nat>, totalBytes: int)
    requires InStep(conv, sizes)
    ensures kept == conv[OversizeCount(baseBytes, conv, ceiling)..] && InStep(kept, convBytes)
    ensures totalBytes == baseBytes + MessagesBytes(kept)
  {
    kept, convBytes, totalBytes := conv, sizes, baseBytes;
    for i := 0 to |sizes|
      invariant totalBytes == baseBytes + MessagesBytes(conv[..i])
    {
      assert conv[..i + 1] == conv[..i] + [conv[i]];
      MessagesBytesConcat(conv[..i], [conv[i]]);
      totalBytes := totalBytes + sizes[i];
    }
    assert conv[..|sizes|] == conv;
    ghost var dropped := 0;
    while |kept| > 2 && totalBytes > ceiling
      invariant dropped <= |conv| && kept == conv[dropped..] && InStep(kept, convBytes)
      invariant totalBytes == baseBytes + MessagesBytes(kept)
      invariant OversizeCount(baseBytes, conv, ceiling) == dropped + OversizeCount(baseBytes, kept, ceiling)
      decreases |kept|
    {
      totalBytes := totalBytes - convBytes[0];
      kept, convBytes := kept[1..], convBytes[1..];
      dropped := dropped + 1;
    }
  }

  method DropStrays(conv: seq<Message>, sizes: seq<nat>, baseBytes: nat, total: int)
    returns (kept: seq<Message>, totalBytes: int)
    requires InStep(conv, sizes) && total == baseBytes + MessagesBytes(conv)
    ensures kept == conv[StrayToolCount(conv)..]
    ensures totalBytes == baseBytes + MessagesBytes(kept)
  {
    var convBytes := sizes;
    kept, totalBytes := conv, total;
    ghost var strays := 0;
    while |kept| > 2 && kept[0].role.Tool?
      invariant strays <= |conv| && kept == conv[strays..] && InStep(kept, convBytes)
      invariant totalBytes == baseBytes + MessagesBytes(kept)
      invariant StrayToolCount(conv) == strays + StrayToolCount(kept)
      decreases |kept|
    {
      totalBytes := totalBytes - convBytes[0];
      kept, convBytes := kept[1..], convBytes[1..];
      strays := strays + 1;
    }
  }

  /** `totalBytes` is the running total the source logs; it is a full recount of the result. */
  method RunDropOldMessages(payload: Payload, ceiling: int) returns (r: Payload, totalBytes: int)
    ensures r == DropOldMessages(payload, ceiling)
    ensures totalBytes == PayloadBytes(r)
  {
    var systemMessages, conversationMessages := Systems(payload.messages), Conversation(payload.messages);
    var baseBytes := EstimatePayloadBytes(Payload(systemMessages, payload.toolLengths));
    var convBytes := seq(|conversationMessages|, i requires 0 <= i < |conversationMessages| => MessageBytes(conversationMessages[i]));
    var once, kept;
    once, convBytes, totalBytes := DropOversize(conversationMessages, convBytes, baseBytes, ceiling);
    kept, totalBytes := DropStrays(once, convBytes, baseBytes, totalBytes);
    r := payload.(messages := systemMessages + kept);
    DropInTwoLoops(payload, ceiling, baseBytes, once, kept);
  }

  lemma DropInTwoLoops(p: Payload, ceiling: int, base: nat, once: seq<Message>, kept: seq<Message>)
    requires base == PayloadBytes(Payload(Systems(p.messages), p.toolLengths))
    requires once == Conversation(p.messages)[OversizeCount(base, Conversation(p.messages), ceiling)..]
    requires kept == once[StrayToolCount(once)..]
    ensures p.(messages := Systems(p.messages) + kept) == DropOldMessages(p, ceiling)
    ensures base + MessagesBytes(kept) == PayloadBytes(DropOldMessages(p, ceiling))
  {
    assert base == BaseBytes(p);
    var conv := Conversation(p.messages);
    var k := OversizeCount(base, conv, ceiling);
    assert conv[k..][StrayToolCount(once)..] == conv[k + StrayToolCount(once)..];
    MessagesBytesConcat(Systems(p.messages), kept);
  }

  lemma {:induction false} OversizeIsFewest(base: nat, conv: seq<Message>, ceiling: int)
    ensures var k := OversizeCount(base, conv, ceiling);
            && k <= Most0(|conv| - 2)
            && (forall i :: 0 <= i < k ==> base + MessagesBytes(conv[i..]) > ceiling)
            && (base + MessagesBytes(conv[k..]) <= ceiling || |conv[k..]| <= 2)
  {
    if |conv| > 2 && base + MessagesBytes(conv) > ceiling {
      OversizeIsFewest(base, conv[1..], ceiling);
      var k := OversizeCount(base, conv, ceiling);
      assert conv[1..][k - 1..] == conv[k..];
      forall i | 0 <= i < k ensures base + MessagesBytes(conv[i..]) > ceiling {
        if i > 0 { assert conv[1..][i - 1..] == conv[i..]; }
      }
    }
  }

  function Most0(n: int): nat { if n > 0 then n else 0 }

  lemma {:induction false} StraysAreTools(conv: seq<Message>)
    ensures var k := StrayToolCount(conv);
            && k <= Most0(|conv| - 2)
            && (forall i :: 0 <= i < k ==> conv[i].role.Tool?)
            && (|conv| - k <= 2 || !conv[k].role.Tool?)
  {
    if |conv| > 2 && conv[0].role.Tool? {
      StraysAreTools(conv[1..]);
      var k := StrayToolCount(conv);
      assert conv[1..][k - 1..] == conv[k..];
      forall i | 0 <= i < k ensures conv[i].role.Tool? {
        if i > 0 { assert conv[1..][i - 1] == conv[i]; }
      }
    }
  }

  lemma SuffixBytes(conv: seq<Message>, i: nat, j: nat)
    requires i <= j <= |conv|
    ensures MessagesBytes(conv[j..]) <= MessagesBytes(conv[i..])
  {
    assert conv[i..] == conv[i..j] + conv[j..];
    MessagesBytesConcat(conv[i..j], conv[j..]);
  }

  lemma {:induction false} SystemsOfSystems(sys: seq<Message>, conv: seq<Message>)
    requires forall m <- sys :: IsSystem(m)
    requires forall m <- conv :: !IsSystem(m)
    ensures Systems(sys + conv) == sys && Conversation(sys + conv) == conv
  {
    if sys == [] {
      assert sys + conv == conv;
      if conv != [] {
        assert conv[0] in conv;
        SystemsOfSystems([], conv[1..]);
        assert [] + conv[1..] == conv[1..];
      }
    } else {
      assert (sys + conv)[0] == sys[0] && (sys + conv)[1..] == sys[1..] + conv;
      assert sys[0] in sys;
      SystemsOfSystems(sys[1..], conv);
    }
  }

  /**
   Dropping keeps every system and developer message in order, then a suffix of the
   conversation; the first loop drops the fewest messages that fit or leave two; the
   result fits or has at most two conversation messages; and more than two never start
   with a tool message.
   */
  lemma DropKeepsSuffix(p: Payload, ceiling: int)
    ensures var r := DropOldMessages(p, ceiling);
            var conv := Conversation(p.messages);
            var k := OversizeCount(BaseBytes(p), conv, ceiling);
            && Systems(r.messages) == Systems(p.messages)
            && Conversation(r.messages) == conv[DroppedCount(p, ceiling)..]
            && r.toolLengths == p.toolLengths
            && (forall i :: 0 <= i < k ==> BaseBytes(p) + MessagesBytes(conv[i..]) > ceiling)
            && (PayloadBytes(r) <= ceiling || |Conversation(r.messages)| <= 2)
            && (|Conversation(r.messages)| > 2 ==> !Conversation(r.messages)[0].role.Tool?)
            && (|conv| >= 2 ==> |Conversation(r.messages)| >= 2)
            && |Conversation(r.messages)| <= |conv|
  {
    var conv := Conversation(p.messages);
    var k := OversizeCount(BaseBytes(p), conv, ceiling);
    var n := DroppedCount(p, ceiling);
    SplitMembers(p.messages);
    OversizeIsFewest(BaseBytes(p), conv, ceiling);
    StraysAreTools(conv[k..]);
    assert conv[k..][n - k..] == conv[n..];
    SuffixBytes(conv, k, n);
    MessagesBytesConcat(Systems(p.messages), conv[n..]);
    assert forall m <- conv[n..] :: m in conv;
    SystemsOfSystems(Systems(p.messages), conv[n..]);
  }

  // ----- the pipeline -----

  /** The four stages before dropping, each skipped once the payload fits; and whether it then fits. */
  function Reduced(p: Payload, ceiling: int): Payload {
    if PayloadBytes(p) <= ceiling then p
    else
      var a := PruneToolOutputs(p);
      if PayloadBytes(a) <= ceiling then a
      else
        var b := StripOldImages(a);
        if PayloadBytes(b) <= ceiling then b
        else
          var c := StripAllImages(b);
          if PayloadBytes(c) <= ceiling then c else TruncateOversizedToolOutputs(c)
  }

  function Fitted(p: Payload, ceiling: int): Payload {
    var r := Reduced(p, ceiling);
    if PayloadBytes(r) <= ceiling then r else DropOldMessages(r, ceiling)
  }

  method FitPayloadToCeiling(payload: Payload, ceiling: int) returns (current: Payload)
    ensures current == Fitted(payload, ceiling)
  {
    var bytes := EstimatePayloadBytes(payload);
    if bytes <= ceiling {
      return payload;
    }
    current := RunPruneToolOutputs(payload);
    bytes := EstimatePayloadBytes(current);
    if bytes <= ceiling {
      return;
    }
    current := RunStripOldImages(current);
    bytes := EstimatePayloadBytes(current);
    if bytes <= ceiling {
      return;
    }
    current := StripAllImages(current);
    bytes := EstimatePayloadBytes(current);
    if bytes <= ceiling {
      return;
    }
    current := TruncateOversizedToolOutputs(current);
    bytes := EstimatePayloadBytes(current);
    if bytes <= ceiling {
      return;
    }
    var total;
    current, total := RunDropOldMessages(current, ceiling);
  }

  // ----- stages that make a payload bigger -----

  function Letters(n: nat): string { seq(n, _ => 'x') }

  /** An empty old output with a long call id, and a recent output that fills the protected budget. */
  const PruneGrows := Payload([Message(Tool, Text(""), [], Letters(50_000)), Message(Tool, Text(Letters(200_000)), [], "a")], [])

  lemma PruningCanGrow()
    ensures PayloadBytes(PruneToolOutputs(PruneGrows)) == PayloadBytes(PruneGrows) + |PRUNED_PLACEHOLDER| > PayloadBytes(PruneGrows)
  {
    var ms := PruneGrows.messages;
    PruningReclaimsExactly(PruneGrows);
    assert ms[1..][0] == ms[1] && ms[1..][1..] == [] && ms[2..] == [];
    assert ToolBytes(ms[2..]) == 0;
    assert ToolBytes(ms[1..]) == MessageBytes(ms[1]);
    assert IsOldTool(ms, 0) && !IsOldTool(ms, 1);
    assert OldToolBytes(ms, 2) == 0 && OldToolBytes(ms, 1) == 0;
    assert PruneGain(ms, 2) == 0 && PruneGain(ms, 1) == 0;
  }

  /** An image whose URL is empty. */
  const StripGrows := Payload([Message(User, Parts([ImagePart("")]), [], "")], [])

  lemma StrippingCanGrow()
    ensures PayloadBytes(StripAllImages(StripGrows)) > PayloadBytes(StripGrows)
  {
    var ms := StripGrows.messages;
    StrippingReclaimsExactly(StripGrows, 1);
    assert ms[..1] == ms && ms[1..] == [] && [ImagePart("")][1..] == [];
    assert ImageGain([ImagePart("")]) == 20 - |IMAGE_STRIPPED_PLACEHOLDER| + ImageGain([]);
    assert ImagesGain(ms) == ImageGain([ImagePart("")]) + ImagesGain([]);
  }

  /** A tool output one unit over the cap. */
  const CapGrows := Payload([Message(Tool, Text(Letters(100_001)), [], "a")], [])

  lemma CappingCanGrow()
    ensures PayloadBytes(TruncateOversizedToolOutputs(CapGrows)) > PayloadBytes(CapGrows)
  {
    var m := CapGrows.messages[0];
    CappingGrowsExactly(CapGrows);
    assert |CapMessage(m).content.text| == TOOL_OUTPUT_HARD_CAP + |TOOL_TRUNCATED_SUFFIX|;
    assert CapGrows.messages[1..] == [] && |TOOL_TRUNCATED_SUFFIX| > 1;
    assert OverCap(CapGrows.messages) == 1 && OversizeCapped(CapGrows.messages) == 1;
  }

  /** Bytes the reducing stages reclaim, each counted only if it is reached. */
  function Reclaimed(p: Payload, ceiling: int): int {
    if PayloadBytes(p) <= ceiling then 0
    else
      var a := PruneToolOutputs(p);
      PruneReclaims(p)
      + if PayloadBytes(a) <= ceiling then 0
        else
          var b := StripOldImages(a);
          ImagesGain(a.messages[..Most0(|a.messages| - 4)])
          + if PayloadBytes(b) <= ceiling then 0
            else
              var c := StripAllImages(b);
              ImagesGain(b.messages) + if PayloadBytes(c) <= ceiling then 0 else CapGain(c.messages)
  }

  /** The reduced payload weighs what the payload weighed, less exactly what the stages reclaimed. */
  lemma ReducedBytes(p: Payload, ceiling: int)
    ensures PayloadBytes(Reduced(p, ceiling)) == PayloadBytes(p) - Reclaimed(p, ceiling)
  {
    var a := PruneToolOutputs(p);
    var b := StripOldImages(a);
    PruningReclaimsExactly(p);
    OldImagesReclaimExactly(a);
    StrippingReclaimsExactly(b, |b.messages|);
    assert b.messages[..|b.messages|] == b.messages;
    CappingReclaimsExactly(StripAllImages(b));
  }

  lemma OldImagesReclaimExactly(p: Payload)
    ensures PayloadBytes(StripOldImages(p)) == PayloadBytes(p) - ImagesGain(p.messages[..Most0(|p.messages| - 4)])
  {
    StrippingReclaimsExactly(p, Most0(|p.messages| - 4));
    assert StripBefore(p, Most0(|p.messages| - 4)) == StripOldImages(p);
  }

  /** Once all images were stripped no exit gives one back. */
  lemma ImagesStayGone(p: Payload, ceiling: int)
    requires PayloadBytes(p) > ceiling && PayloadBytes(PruneToolOutputs(p)) > ceiling
    requires PayloadBytes(StripOldImages(PruneToolOutputs(p))) > ceiling
    ensures forall m <- Fitted(p, ceiling).messages :: HasNoImage(m)
  {
    var b := StripOldImages(PruneToolOutputs(p));
    var c := StripAllImages(b);
    StrippedMessages(b, |b.messages|);
    assert c.messages[..|b.messages|] == c.messages;
    forall m | m in TruncateOversizedToolOutputs(c).messages ensures HasNoImage(m) {
      var i :| 0 <= i < |c.messages| && CapMessage(c.messages[i]) == m;
      assert c.messages[i] in c.messages;
    }
    var q := Reduced(p, ceiling);
    forall m | m in DropOldMessages(q, ceiling).messages ensures m in q.messages {
      PartsOf(q.messages, m);
    }
  }

  lemma {:induction false} PartsOf(ms: seq<Message>, m: Message)
    ensures m in Systems(ms) || m in Conversation(ms) <==> m in ms
  {
    if ms != [] {
      PartsOf(ms[1..], m);
      assert m in ms <==> m == ms[0] || m in ms[1..];
    }
  }

  /** Only contents change: roles, tool calls and call ids stay, message by message. */
  predicate SameSkeleton(a: seq<Message>, b: seq<Message>) {
    && |a| == |b|
    && forall i :: 0 <= i < |a| ==>
         a[i].role == b[i].role && a[i].toolCalls == b[i].toolCalls && a[i].toolCallId == b[i].toolCallId
  }

  lemma StagesKeepSkeleton(p: Payload, boundary: int)
    ensures SameSkeleton(p.messages, PruneToolOutputs(p).messages) && PruneToolOutputs(p).toolLengths == p.toolLengths
    ensures SameSkeleton(p.messages, StripBefore(p, boundary).messages) && StripBefore(p, boundary).toolLengths == p.toolLengths
    ensures SameSkeleton(p.messages, TruncateOversizedToolOutputs(p).messages)
    ensures TruncateOversizedToolOutputs(p).toolLengths == p.toolLengths
  {
  }

  lemma SkeletonTransitive(a: seq<Message>, b: seq<Message>, c: seq<Message>)
    requires SameSkeleton(a, b) && SameSkeleton(b, c)
    ensures SameSkeleton(a, c)
  {
  }

  lemma ReducedKeepsSkeleton(p: Payload, ceiling: int)
    ensures SameSkeleton(p.messages, Reduced(p, ceiling).messages)
    ensures Reduced(p, ceiling).toolLengths == p.toolLengths
  {
    var a := PruneToolOutputs(p);
    var b := StripOldImages(a);
    var c := StripAllImages(b);
    StagesKeepSkeleton(p, 0);
    StagesKeepSkeleton(a, |a.messages| - 4);
    StagesKeepSkeleton(b, |b.messages|);
    StagesKeepSkeleton(c, 0);
    SkeletonTransitive(p.messages, a.messages, b.messages);
    SkeletonTransitive(p.messages, b.messages, c.messages);
    SkeletonTransitive(p.messages, c.messages, TruncateOversizedToolOutputs(c).messages);
  }

  lemma {:induction false} SkeletonConversation(a: seq<Message>, b: seq<Message>)
    requires SameSkeleton(a, b)
    ensures SameSkeleton(Conversation(a), Conversation(b)) && SameSkeleton(Systems(a), Systems(b))
  {
    if a != [] { SkeletonConversation(a[1..], b[1..]); }
  }

  /**
   The fit contract: unchanged when within the ceiling; otherwise within the ceiling or
   down to at most two conversation messages, with all system messages kept and the
   conversation a suffix of what it was, contents aside.
   */
  lemma FitContract(p: Payload, ceiling: int)
    ensures var r := Fitted(p, ceiling);
            var kept := Conversation(r.messages);
            var conv := Conversation(p.messages);
            && (PayloadBytes(p) <= ceiling ==> r == p)
            && (PayloadBytes(r) <= ceiling || |kept| <= 2)
            && |kept| <= |conv|
            && SameSkeleton(conv[|conv| - |kept|..], kept)
            && SameSkeleton(Systems(p.messages), Systems(r.messages))
            && r.toolLengths == p.toolLengths
  {
    var q := Reduced(p, ceiling);
    ReducedKeepsSkeleton(p, ceiling);
    SkeletonConversation(p.messages, q.messages);
    if PayloadBytes(q) > ceiling {
      DropKeepsSuffix(q, ceiling);
      SkeletonSuffix(Conversation(p.messages), Conversation(q.messages), DroppedCount(q, ceiling));
    } else {
      SkeletonSuffix(Conversation(p.messages), Conversation(q.messages), 0);
    }
  }

  lemma SkeletonSuffix(a: seq<Message>, b: seq<Message>, k: nat)
    requires SameSkeleton(a, b) && k <= |b|
    ensures SameSkeleton(a[|a| - |b[k..]|..], b[k..])
  {
  }

  /** What is left when all but two conversation messages are dropped still fits. */
  predicate LastTwoFit(p: Payload, ceiling: int) {
    var conv := Conversation(p.messages);
    BaseBytes(p) + MessagesBytes(conv[Most0(|conv| - 2)..]) <= ceiling
  }

  /** At most the conversation but its last two messages is dropped. */
  lemma DropsAtMost(p: Payload, ceiling: int)
    ensures DroppedCount(p, ceiling) <= Most0(|Conversation(p.messages)| - 2)
  {
    var conv := Conversation(p.messages);
    OversizeIsFewest(BaseBytes(p), conv, ceiling);
    StraysAreTools(conv[OversizeCount(BaseBytes(p), conv, ceiling)..]);
  }

  lemma DroppedBytes(p: Payload, ceiling: int)
    ensures DroppedCount(p, ceiling) <= |Conversation(p.messages)|
    ensures PayloadBytes(DropOldMessages(p, ceiling))
            == BaseBytes(p) + MessagesBytes(Conversation(p.messages)[DroppedCount(p, ceiling)..])
  {
    DropKeepsSuffix(p, ceiling);
    SplitBytes(DropOldMessages(p, ceiling).messages);
  }

  lemma DropFitsExactly(p: Payload, ceiling: int)
    requires PayloadBytes(p) > ceiling
    ensures PayloadBytes(DropOldMessages(p, ceiling)) <= ceiling <==> LastTwoFit(p, ceiling)
  {
    var conv := Conversation(p.messages);
    var k1 := OversizeCount(BaseBytes(p), conv, ceiling);
    var k := DroppedCount(p, ceiling);
    DropsAtMost(p, ceiling);
    DroppedBytes(p, ceiling);
    OversizeIsFewest(BaseBytes(p), conv, ceiling);
    SuffixBytes(conv, k1, k);
    SuffixBytes(conv, k, Most0(|conv| - 2));
  }

  /**
   When fitting succeeds, exactly: if what the stages before dropping leave fits, or if its
   system messages, tools and last two conversation messages do.
   */
  lemma FitSucceedsExactly(p: Payload, ceiling: int)
    ensures var q := Reduced(p, ceiling);
            PayloadBytes(Fitted(p, ceiling)) <= ceiling <==> PayloadBytes(q) <= ceiling || LastTwoFit(q, ceiling)
  {
    var q := Reduced(p, ceiling);
    if PayloadBytes(q) > ceiling { DropFitsExactly(q, ceiling); }
  }

  // ----- ceilings, and rejecting what cannot be fitted -----

  /** Half-integer arithmetic: 3.5 characters a token, rounded down. A limit of 0 counts as missing. */
  function EffectiveCeiling(maxPromptTokens: Option<int>): int {
    match maxPromptTokens
    case None => MAX_PAYLOAD_BYTES
    case Some(limit) =>
      var tokenDerivedBytes := (limit - TOKEN_RESERVE) * 7 / 2;
      if limit == 0 || MAX_PAYLOAD_BYTES < tokenDerivedBytes then MAX_PAYLOAD_BYTES else tokenDerivedBytes
  }

  datatype Model = Model(maxPromptTokens: Option<int>)

  /** The fit-or-reject step of `handleChatCompletions`; None is the prompt-too-long error. */
  method FitOrReject(payload: Payload, model: Option<Model>) returns (r: Option<Payload>)
    ensures model.Some? ==> r == Some(Fitted(payload, EffectiveCeiling(model.value.maxPromptTokens)))
    ensures model.None? && r.Some? ==>
              r.value == Fitted(payload, UNKNOWN_MODEL_PAYLOAD_BYTES) && PayloadBytes(r.value) <= UNKNOWN_MODEL_PAYLOAD_BYTES
    ensures UNKNOWN_MODEL_PAYLOAD_BYTES == 1_900_000
    ensures var q := Reduced(payload, UNKNOWN_MODEL_PAYLOAD_BYTES);
            r.None? <==> && model.None?
                         && PayloadBytes(q) > UNKNOWN_MODEL_PAYLOAD_BYTES && !LastTwoFit(q, UNKNOWN_MODEL_PAYLOAD_BYTES)
    ensures r.None? ==> |Conversation(Fitted(payload, UNKNOWN_MODEL_PAYLOAD_BYTES).messages)| <= 2
  {
    if model.Some? {
      var fitted := FitPayloadToCeiling(payload, EffectiveCeiling(model.value.maxPromptTokens));
      return Some(fitted);
    }
    var fitted := FitPayloadToCeiling(payload, UNKNOWN_MODEL_PAYLOAD_BYTES);
    FitContract(payload, UNKNOWN_MODEL_PAYLOAD_BYTES);
    FitSucceedsExactly(payload, UNKNOWN_MODEL_PAYLOAD_BYTES);
    var bytes := EstimatePayloadBytes(fitted);
    r := if bytes > UNKNOWN_MODEL_PAYLOAD_BYTES then None else Some(fitted);
  }
}
