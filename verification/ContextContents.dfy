/**
 What the chat fitter does to the words (lib/context-manager.ts): how any message it keeps may
 differ from the message it was, and the ceiling it fits to, in numbers.
 */
module ContextContents {
  import opened Common
  import opened ContextFit

  predicate DegradedPart(p: Part, q: Part) {
    q == p || (p.ImagePart? && q == TextPart("[image removed to save context]"))
  }

  predicate DegradedParts(ps: seq<Part>, qs: seq<Part>) {
    |qs| == |ps| && forall i :: 0 <= i < |ps| ==> DegradedPart(ps[i], qs[i])
  }

  /** A tool output gone, some images gone, or a tool output cut behind its first 100,000 units: nothing else changes. */
  predicate Degraded(m: Message, r: Message) {
    || r == m
    || (m.role.Tool? && r == m.(content := Text("[content pruned \U{2014} tool output was too old]")))
    || (m.content.Parts? && r.content.Parts? && r == m.(content := r.content) && DegradedParts(m.content.parts, r.content.parts))
    || (m.role.Tool? && m.content.Text? && |m.content.text| > 100_000
        && r == m.(content := Text(m.content.text[..100_000] + "\n\n[\U{2026}tool output truncated to fit context]")))
  }

  predicate DegradedAll(a: seq<Message>, b: seq<Message>) {
    |b| == |a| && forall i :: 0 <= i < |a| ==> Degraded(a[i], b[i])
  }

  lemma PruneDegrades(p: Payload)
    ensures DegradedAll(p.messages, PruneToolOutputs(p).messages)
  {
  }

  lemma StripDegrades(m: Message, a: Message)
    requires Degraded(m, a)
    ensures Degraded(m, StripMessage(a))
  {
    if a.content.Parts? {
      var ps, qs, rs := m.content.parts, a.content.parts, StripParts(a.content.parts);
      forall i | 0 <= i < |ps| ensures DegradedPart(ps[i], rs[i]) {
        assert DegradedPart(ps[i], qs[i]) && rs[i] == StripPart(qs[i]);
      }
    }
  }

  lemma CapDegrades(m: Message, a: Message)
    requires Degraded(m, a)
    ensures Degraded(m, CapMessage(a))
  {
  }

  /** The stages before dropping leave every message as it was, or degraded in one of these ways. */
  lemma ReducedDegrades(p: Payload, ceiling: int)
    ensures DegradedAll(p.messages, Reduced(p, ceiling).messages)
  {
    var a := PruneToolOutputs(p);
    var b := StripOldImages(a);
    var c := StripAllImages(b);
    PruneDegrades(p);
    forall i | 0 <= i < |p.messages|
      ensures Degraded(p.messages[i], b.messages[i]) && Degraded(p.messages[i], c.messages[i])
      ensures Degraded(p.messages[i], TruncateOversizedToolOutputs(c).messages[i])
    {
      var m := p.messages[i];
      StripDegrades(m, a.messages[i]);
      StripDegrades(m, b.messages[i]);
      CapDegrades(m, c.messages[i]);
    }
  }

  lemma DegradedTail(a: seq<Message>, b: seq<Message>)
    requires a != [] && DegradedAll(a, b)
    ensures DegradedAll(a[1..], b[1..]) && IsSystem(a[0]) == IsSystem(b[0])
  {
    assert Degraded(a[0], b[0]);
    forall i | 0 <= i < |a[1..]| ensures Degraded(a[1..][i], b[1..][i]) { assert Degraded(a[i + 1], b[i + 1]); }
  }

  lemma DegradedMore(m: Message, r: Message, a: seq<Message>, b: seq<Message>)
    requires Degraded(m, r) && DegradedAll(a, b)
    ensures DegradedAll([m] + a, [r] + b)
  {
  }

  lemma {:induction false} DegradedParted(a: seq<Message>, b: seq<Message>)
    requires DegradedAll(a, b)
    ensures DegradedAll(Conversation(a), Conversation(b)) && DegradedAll(Systems(a), Systems(b))
  {
    if a != [] {
      assert Degraded(a[0], b[0]);
      DegradedTail(a, b);
      DegradedParted(a[1..], b[1..]);
      DegradedMore(a[0], b[0], Conversation(a[1..]), Conversation(b[1..]));
      DegradedMore(a[0], b[0], Systems(a[1..]), Systems(b[1..]));
    }
  }

  /** The system messages, and a suffix of the conversation, each as it was or degraded in one of the three ways. */
  ghost predicate KeepsWords(p: Payload, r: Payload) {
    var conv, kept := Conversation(p.messages), Conversation(r.messages);
    && |kept| <= |conv| && DegradedAll(conv[|conv| - |kept|..], kept)
    && DegradedAll(Systems(p.messages), Systems(r.messages))
  }

  lemma SuffixKeepsWords(p: Payload, q: Payload, r: Payload, k: nat)
    requires DegradedAll(p.messages, q.messages) && k <= |Conversation(q.messages)|
    requires Systems(r.messages) == Systems(q.messages) && Conversation(r.messages) == Conversation(q.messages)[k..]
    ensures KeepsWords(p, r)
  {
    DegradedParted(p.messages, q.messages);
    DegradedSuffix(Conversation(p.messages), Conversation(q.messages), k);
  }

  /** What fitting keeps of the words, whatever the ceiling. */
  lemma FittedDegrades(p: Payload, ceiling: int)
    ensures KeepsWords(p, Fitted(p, ceiling))
  {
    var q := Reduced(p, ceiling);
    ReducedDegrades(p, ceiling);
    if PayloadBytes(q) > ceiling {
      DropKeepsSuffix(q, ceiling);
      SuffixKeepsWords(p, q, DropOldMessages(q, ceiling), DroppedCount(q, ceiling));
    } else {
      SuffixKeepsWords(p, q, q, 0);
    }
  }

  lemma DegradedSuffix(a: seq<Message>, b: seq<Message>, k: nat)
    requires DegradedAll(a, b) && k <= |b|
    ensures DegradedAll(a[|a| - |b[k..]|..], b[k..])
  {
    forall i | 0 <= i < |b[k..]| ensures Degraded(a[|a| - |b[k..]|..][i], b[k..][i]) {
      assert Degraded(a[k + i], b[k + i]);
    }
  }

  /**
   The ceiling in numbers: 5,000,000 without a known prompt limit; otherwise 3.5 bytes for each
   token the limit leaves beyond a reserve of 8,000, rounded down, and at most 5,000,000.
   */
  lemma CeilingExactly(limit: int)
    ensures EffectiveCeiling(None) == 5_000_000 == EffectiveCeiling(Some(0))
    ensures limit != 0 ==>
              var c := EffectiveCeiling(Some(limit));
              && c <= 5_000_000 && 10 * c <= 35 * (limit - 8_000)
              && (10 * (c + 1) > 35 * (limit - 8_000) || c == 5_000_000)
  {
  }

  // ----- what the estimates count -----

  lemma {:induction false} PartsBytesConcat(a: seq<Part>, b: seq<Part>)
    ensures PartsBytes(a + b) == PartsBytes(a) + PartsBytes(b)
  {
    if a == [] {
      assert a + b == b;
    } else {
      PartsBytesConcat(a[1..], b);
      HeadTail(a, b);
    }
  }

  lemma {:induction false} CallsBytesConcat(a: seq<ToolCall>, b: seq<ToolCall>)
    ensures CallsBytes(a + b) == CallsBytes(a) + CallsBytes(b)
  {
    if a == [] {
      assert a + b == b;
    } else {
      CallsBytesConcat(a[1..], b);
      HeadTail(a, b);
    }
  }

  /**
   The estimates in numbers. A message weighs 40, its string or what its parts weigh, what its
   calls weigh, and its call id and 20 if it has one; every further text part weighs its length
   and 20, image part its URL and 40, call its name, arguments and 80, tool its JSON text and
   20; a payload weighs 200 and all of them.
   */
  lemma EstimatesExactly(role: Role, text: string, parts: seq<Part>, calls: seq<ToolCall>, url: string, call: ToolCall, id: string)
    ensures MessageBytes(Message(role, NoContent, [], "")) == 40 == MessageBytes(Message(role, Parts([]), [], ""))
    ensures MessageBytes(Message(role, Text(text), [], "")) == 40 + |text|
    ensures MessageBytes(Message(role, Parts(parts + [TextPart(text)]), calls, id))
            == MessageBytes(Message(role, Parts(parts), calls, id)) + |text| + 20
    ensures MessageBytes(Message(role, Parts(parts + [ImagePart(url)]), calls, id))
            == MessageBytes(Message(role, Parts(parts), calls, id)) + |url| + 40
    ensures forall content :: MessageBytes(Message(role, content, calls + [call], id))
                              == MessageBytes(Message(role, content, calls, id)) + |call.name| + |call.arguments| + 80
    ensures forall content :: id != "" ==> MessageBytes(Message(role, content, calls, id))
                                           == MessageBytes(Message(role, content, calls, "")) + |id| + 20
  {
    PartsBytesConcat(parts, [TextPart(text)]);
    PartsBytesConcat(parts, [ImagePart(url)]);
    CallsBytesConcat(calls, [call]);
    assert [TextPart(text)][1..] == [] && [ImagePart(url)][1..] == [] && [call][1..] == [];
    assert PartsBytes([TextPart(text)]) == |text| + 20 && PartsBytes([ImagePart(url)]) == |url| + 40;
    assert CallsBytes([call]) == |call.name| + |call.arguments| + 80;
  }

  lemma {:induction false} ToolsBytesConcat(a: seq<nat>, b: seq<nat>)
    ensures ToolsBytes(a + b) == ToolsBytes(a) + ToolsBytes(b)
  {
    if a == [] {
      assert a + b == b;
    } else {
      ToolsBytesConcat(a[1..], b);
      HeadTail(a, b);
    }
  }

  lemma PayloadEstimateExactly(messages: seq<Message>, tools: seq<nat>, m: Message, tool: nat)
    ensures PayloadBytes(Payload([], [])) == 200
    ensures PayloadBytes(Payload(messages + [m], tools)) == PayloadBytes(Payload(messages, tools)) + MessageBytes(m)
    ensures PayloadBytes(Payload(messages, tools + [tool])) == PayloadBytes(Payload(messages, tools)) + tool + 20
  {
    MessagesBytesConcat(messages, [m]);
    ToolsBytesConcat(tools, [tool]);
    assert [m][1..] == [] && [tool][1..] == [];
  }

  // ----- what is kept apart -----

  predicate SameMessage(m: Message, r: Message) { r == m }

  predicate IsTurn(m: Message) { !IsSystem(m) }

  /** System messages and conversation are exactly the messages of their kind, in order. */
  lemma {:induction false} SplitExactly(ms: seq<Message>)
    ensures Filtered(ms, IsSystem, SameMessage, Systems(ms))
    ensures Filtered(ms, IsTurn, SameMessage, Conversation(ms))
  {
    if ms == [] {
      FilteredNone(IsSystem, SameMessage);
      FilteredNone(IsTurn, SameMessage);
    } else {
      SplitExactly(ms[1..]);
      var system := if IsSystem(ms[0]) then [ms[0]] else [];
      var turn := if IsSystem(ms[0]) then [] else [ms[0]];
      FilteredMore(ms, IsSystem, SameMessage, system, Systems(ms[1..]));
      FilteredMore(ms, IsTurn, SameMessage, turn, Conversation(ms[1..]));
      assert Systems(ms) == system + Systems(ms[1..]) && Conversation(ms) == turn + Conversation(ms[1..]);
    }
  }
}
