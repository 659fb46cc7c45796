/**
 What the web-search loop tells the model and shows the client: the text of every message of
 every history it sends, and the blocks of its answer, by position.
 */
module WebSearchTexts {
  import opened Common
  import opened Aggregation
  import opened ChatResponses
  import opened ContextFit
  import opened WebSearchLoop
  import opened WebSearchLaws

  // ----- what the model is told -----

  /** How far behind the base messages the r-th round starts: every round is one turn and one answer a call. */
  function RoundStart(rounds: seq<Round>, r: nat): nat
    requires r <= |rounds|
  {
    if r == 0 then 0 else RoundStart(rounds, r - 1) + 1 + |rounds[r - 1].reply.toolCalls|
  }

  /** The assistant's turn as the model wrote it: its text, and all its calls in order. */
  predicate RepeatsTurn(reply: Reply, m: Message) {
    && m.role.Assistant? && m.toolCallId == ""
    && (match reply.content case None => m.content == NoContent case Some(text) => m.content == Text(text))
    && |m.toolCalls| == |reply.toolCalls|
    && forall i :: 0 <= i < |reply.toolCalls| ==>
         m.toolCalls[i] == ToolCall(reply.toolCalls[i].id, reply.toolCalls[i].name, reply.toolCalls[i].arguments)
  }

  /**
   The answer to the i-th call of a round: the formatted hits of its own search, or why it
   failed; and, in a round that was denied its searches, the limit note.
   */
  predicate TellsCall(world: World, r: Round, ms: seq<Message>, i: nat)
    requires i < |r.reply.toolCalls| && i + 1 < |ms|
  {
    var m := ms[i + 1];
    && m.role.Tool? && m.toolCallId == r.reply.toolCalls[i].id && m.toolCalls == []
    && (!r.searched ==>
          m.content == Text("Web search limit reached. Answer using the information already gathered; do not request more searches."))
    && (r.searched ==>
          match (world.search)(r.first + i)
          case Found(hits) => m.content == Text((world.format)(hits))
          case Unavailable(message) =>
            m.content == Text(if message == "" then (world.format)([]) else "Search error: " + message))
  }

  ghost predicate TellsRound(world: World, r: Round, ms: seq<Message>) {
    && |ms| == 1 + |r.reply.toolCalls|
    && RepeatsTurn(r.reply, ms[0])
    && forall i :: 0 <= i < |r.reply.toolCalls| ==> TellsCall(world, r, ms, i)
  }

  lemma {:induction false} SearchMessageAt(world: World, calls: seq<Call>, first: nat, i: nat)
    requires i < |calls|
    ensures |SearchMessages(world, calls, first)| == |calls|
    ensures SearchMessages(world, calls, first)[i]
            == Message(Tool, Text(AnswerText(world, (world.search)(first + i))), [], calls[i].id)
  {
    if i > 0 {
      SearchMessageAt(world, calls[1..], first + 1, i - 1);
      assert calls[1..][i - 1] == calls[i] && (first + 1) + (i - 1) == first + i;
    } else {
      SearchMessagesInOrder(world, calls, first);
    }
  }

  lemma {:induction false} LimitMessageAt(calls: seq<Call>, i: nat)
    requires i < |calls|
    ensures |LimitMessages(calls)| == |calls| && LimitMessages(calls)[i] == Message(Tool, Text(LIMIT_NOTE), [], calls[i].id)
  {
    LimitMessagesInOrder(calls);
    if i > 0 { LimitMessageAt(calls[1..], i - 1); }
  }

  lemma RoundTells(world: World, r: Round)
    ensures TellsRound(world, r, RoundMessages(world, r))
  {
    var ms, calls := RoundMessages(world, r), r.reply.toolCalls;
    RoundAnswersInOrder(world, r);
    forall i | 0 <= i < |calls| ensures TellsCall(world, r, ms, i) {
      if r.searched { SearchMessageAt(world, calls, r.first, i); } else { LimitMessageAt(calls, i); }
    }
  }

  lemma {:induction false} RoundStartOfPrefix(rounds: seq<Round>, n: nat, r: nat)
    requires r <= n <= |rounds|
    ensures RoundStart(rounds[..n], r) == RoundStart(rounds, r)
  {
    if r > 0 { RoundStartOfPrefix(rounds, n, r - 1); }
  }

  lemma {:induction false} RoundsLength(world: World, rounds: seq<Round>)
    ensures |RoundsMessages(world, rounds)| == RoundStart(rounds, |rounds|)
    decreases |rounds|
  {
    if rounds != [] {
      var n := |rounds| - 1;
      RoundsLength(world, rounds[..n]);
      RoundStartOfPrefix(rounds, n, n);
      RoundAnswersInOrder(world, rounds[n]);
    }
  }

  function RoundEnd(rounds: seq<Round>, r: nat): nat
    requires r < |rounds|
  {
    RoundStart(rounds, r) + 1 + |rounds[r].reply.toolCalls|
  }

  lemma PartOfPrefix<T>(a: seq<T>, b: seq<T>, i: nat, j: nat)
    requires i <= j <= |a|
    ensures (a + b)[i..j] == a[i..j]
  {
  }

  lemma PartOfSuffix<T>(a: seq<T>, b: seq<T>, i: nat, j: nat)
    requires i <= j <= |b|
    ensures (a + b)[|a| + i..|a| + j] == b[i..j]
  {
  }

  lemma LastRoundAt(world: World, rounds: seq<Round>)
    requires rounds != []
    ensures RoundIsAt(world, rounds, |rounds| - 1)
  {
    var n := |rounds| - 1;
    var before, last := RoundsMessages(world, rounds[..n]), RoundMessages(world, rounds[n]);
    RoundsLength(world, rounds[..n]);
    RoundStartOfPrefix(rounds, n, n);
    RoundAnswersInOrder(world, rounds[n]);
    PartOfSuffix(before, last, 0, |last|);
    assert last[0..|last|] == last;
  }

  lemma EarlierRoundAt(world: World, rounds: seq<Round>, r: nat)
    requires r + 1 < |rounds| && RoundIsAt(world, rounds[..|rounds| - 1], r)
    ensures RoundIsAt(world, rounds, r)
  {
    var n := |rounds| - 1;
    RoundStartOfPrefix(rounds, n, r);
    PartOfPrefix(RoundsMessages(world, rounds[..n]), RoundMessages(world, rounds[n]), RoundStart(rounds, r), RoundEnd(rounds, r));
  }

  /** The r-th round's messages stand where `RoundStart` says. */
  ghost predicate RoundIsAt(world: World, rounds: seq<Round>, r: nat)
    requires r < |rounds|
  {
    && RoundEnd(rounds, r) <= |RoundsMessages(world, rounds)|
    && RoundsMessages(world, rounds)[RoundStart(rounds, r)..RoundEnd(rounds, r)] == RoundMessages(world, rounds[r])
  }

  lemma {:induction false} RoundAt(world: World, rounds: seq<Round>, r: nat)
    requires r < |rounds|
    ensures RoundIsAt(world, rounds, r)
    decreases |rounds|
  {
    if r + 1 < |rounds| {
      RoundAt(world, rounds[..|rounds| - 1], r);
      EarlierRoundAt(world, rounds, r);
    } else {
      LastRoundAt(world, rounds);
    }
  }

  /** The messages of round `r` within a history. */
  function RoundPart(base: Base, rounds: seq<Round>, messages: seq<Message>, r: nat): seq<Message>
    requires r < |rounds|
  {
    var at, end := |base.messages| + RoundStart(rounds, r), |base.messages| + RoundEnd(rounds, r);
    if end <= |messages| then messages[at..end] else []
  }

  lemma RoundPartIs(world: World, base: Base, rounds: seq<Round>, r: nat)
    requires r < |rounds|
    ensures RoundPart(base, rounds, base.messages + RoundsMessages(world, rounds), r) == RoundMessages(world, rounds[r])
  {
    RoundAt(world, rounds, r);
    PartOfSuffix(base.messages, RoundsMessages(world, rounds), RoundStart(rounds, r), RoundEnd(rounds, r));
  }

  /**
   Every history sent upstream, by position: the base messages, and then round after round the
   assistant's turn and, for each of its calls, what its own search found.
   */
  lemma EveryHistoryTells(world: World, base: Base, maxUses: int, n: nat)
    requires StateAt(world, base, maxUses, n).Some?
    ensures var st := StateAt(world, base, maxUses, n).value;
            && base.messages <= st.messages && |st.rounds| == n
            && |st.messages| == |base.messages| + RoundStart(st.rounds, n)
            && forall r :: 0 <= r < n ==>
                 && RoundIsRight(world, maxUses, st.rounds, r)
                 && TellsRound(world, st.rounds[r], RoundPart(base, st.rounds, st.messages, r))
  {
    EveryCallSeesRounds(world, base, maxUses, n);
    var st := StateAt(world, base, maxUses, n).value;
    RoundsLength(world, st.rounds);
    forall r | 0 <= r < n ensures TellsRound(world, st.rounds[r], RoundPart(base, st.rounds, st.messages, r)) {
      RoundPartIs(world, base, st.rounds, r);
      RoundTells(world, st.rounds[r]);
    }
  }

  /** The loop goes on exactly when the model asks for searches and for nothing else. */
  lemma FinalExactly(reply: Reply)
    ensures IsFinal(reply) <==> reply.toolCalls == [] || exists c <- reply.toolCalls :: c.name != "web_search"
  {
    if !HasClientCall(reply.toolCalls) { AllWebCalls(reply.toolCalls); }
  }

  // ----- what the client is shown -----

  /** A server tool block with the call's query, and the hits of its own search behind it. */
  predicate ShowsSearch(world: World, call: Call, search: nat, tool: ContentBlock, result: ContentBlock) {
    && tool == SearchContent(call.id, (world.queryOf)(call.arguments))
    && match (world.search)(search)
       case Found(hits) => result == SearchResultContent(call.id, hits)
       case Unavailable(_) => result == SearchResultContent(call.id, [])
  }

  /** The text the model wrote, unless it is blank, and for each call that was searched its two blocks. */
  ghost predicate ShowsRound(world: World, r: Round, blocks: seq<ContentBlock>) {
    var said := r.reply.content.Some? && !(world.isBlank)(r.reply.content.value);
    var n := if said then 1 else 0;
    && |blocks| == n + (if r.searched then 2 * |r.reply.toolCalls| else 0)
    && (said ==> blocks[0] == TextContent(r.reply.content.value))
    && (r.searched ==> forall i :: 0 <= i < |r.reply.toolCalls| ==>
          ShowsSearch(world, r.reply.toolCalls[i], r.first + i, blocks[n + 2 * i], blocks[n + 2 * i + 1]))
  }

  lemma {:induction false} SearchBlocksAt(world: World, calls: seq<Call>, first: nat, i: nat)
    requires i < |calls|
    ensures |SearchBlocks(world, calls, first)| == 2 * |calls|
    ensures ShowsSearch(world, calls[i], first + i, SearchBlocks(world, calls, first)[2 * i], SearchBlocks(world, calls, first)[2 * i + 1])
  {
    SearchBlocksLength(world, calls, first);
    var rest := SearchBlocks(world, calls[1..], first + 1);
    SearchBlocksLength(world, calls[1..], first + 1);
    if i > 0 {
      SearchBlocksAt(world, calls[1..], first + 1, i - 1);
      assert calls[1..][i - 1] == calls[i] && (first + 1) + (i - 1) == first + i;
      assert SearchBlocks(world, calls, first)[2 * i] == rest[2 * (i - 1)];
      assert SearchBlocks(world, calls, first)[2 * i + 1] == rest[2 * (i - 1) + 1];
    }
  }

  lemma {:induction false} SearchBlocksLength(world: World, calls: seq<Call>, first: nat)
    ensures |SearchBlocks(world, calls, first)| == 2 * |calls|
  {
    if calls != [] { SearchBlocksLength(world, calls[1..], first + 1); }
  }

  lemma RoundShows(world: World, r: Round)
    ensures ShowsRound(world, r, RoundBlocks(world, r))
  {
    var calls, blocks := r.reply.toolCalls, RoundBlocks(world, r);
    var n := |Preamble(world, r.reply)|;
    SearchBlocksLength(world, calls, r.first);
    if r.searched {
      forall i | 0 <= i < |calls| ensures ShowsSearch(world, calls[i], r.first + i, blocks[n + 2 * i], blocks[n + 2 * i + 1]) {
        SearchBlocksAt(world, calls, r.first, i);
      }
    }
  }

  ghost predicate ShowsRounds(world: World, rounds: seq<Round>, parts: seq<seq<ContentBlock>>) {
    |parts| == |rounds| && forall i :: 0 <= i < |rounds| ==> ShowsRound(world, rounds[i], parts[i])
  }

  /** The blocks gathered over the rounds, round by round. */
  lemma {:induction false} RoundsShow(world: World, rounds: seq<Round>) returns (parts: seq<seq<ContentBlock>>)
    ensures RoundsBlocks(world, rounds) == Flat(parts) && ShowsRounds(world, rounds, parts)
    decreases |rounds|
  {
    if rounds == [] {
      parts := [];
    } else {
      var n := |rounds| - 1;
      var before := RoundsShow(world, rounds[..n]);
      parts := before + [RoundBlocks(world, rounds[n])];
      FlatSnoc(before, RoundBlocks(world, rounds[n]));
      RoundShows(world, rounds[n]);
      forall i | 0 <= i < |rounds| ensures ShowsRound(world, rounds[i], parts[i]) {
        if i < n { assert parts[i] == before[i] && rounds[..n][i] == rounds[i]; }
      }
    }
  }

  /**
   An answer shows, round by round, what was said and searched before it, and then the final
   reply's text and calls; it carries the reply's id.
   */
  lemma AnswerShows(world: World, base: Base, maxUses: int, clientModel: string)
    returns (k: nat, parts: seq<seq<ContentBlock>>, text: seq<ContentBlock>, uses: seq<ContentBlock>)
    requires ResultFrom(world, maxUses, clientModel, Start(base), 0).Answer?
    ensures k <= HARD_ITERATION_CAP && StateAt(world, base, maxUses, k).Some? && (world.upstream)(k).Streamed?
    ensures var m := ResultFrom(world, maxUses, clientModel, Start(base), 0).message;
            var reply := ReplyTo((world.upstream)(k));
            && ShowsRounds(world, StateAt(world, base, maxUses, k).value.rounds, parts)
            && m.id == reply.id
            && m.content == Flat(parts) + (text + uses)
            && text == (match reply.content case None => [] case Some(said) => [TextContent(said)])
            && CarriesCalls(world.parseInput, reply.toolCalls, uses)
  {
    k := AnswerComesFrom(world, base, maxUses, clientModel, 0, Start(base));
    var st := StateAt(world, base, maxUses, k).value;
    var reply := ReplyTo((world.upstream)(k));
    EveryCallSeesRounds(world, base, maxUses, k);
    parts := RoundsShow(world, st.rounds);
    FinalBlocksHaveNoSearch(reply, clientModel, world.parseInput);
    text, uses := TextBlocks(AsContent(reply.content)), ToolUseBlocks(reply.toolCalls, world.parseInput);
    ToolUseBlocksCarry(reply.toolCalls, world.parseInput);
  }
}
