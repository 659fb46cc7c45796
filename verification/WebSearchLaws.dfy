/** What every run of the web-search loop keeps, whatever the model and the search provider answer. */
module WebSearchLaws {
  import opened Common
  import opened StreamTranslation
  import opened Aggregation
  import opened ChatResponses
  import opened ContextFit
  import opened WebSearchLoop
  import ToolPairing

  // ----- rounds added up -----

  function RoundsMessages(world: World, rounds: seq<Round>): seq<Message> {
    if rounds == [] then []
    else RoundsMessages(world, rounds[..|rounds| - 1]) + RoundMessages(world, rounds[|rounds| - 1])
  }

  function RoundsBlocks(world: World, rounds: seq<Round>): seq<ContentBlock> {
    if rounds == [] then []
    else RoundsBlocks(world, rounds[..|rounds| - 1]) + RoundBlocks(world, rounds[|rounds| - 1])
  }

  function Searches(rounds: seq<Round>): nat {
    if rounds == [] then 0 else Searches(rounds[..|rounds| - 1]) + RoundSearches(rounds[|rounds| - 1])
  }

  function ReplyTokens(reply: Reply): int {
    match reply.usage case None => 0 case Some(u) => u.completionTokens
  }

  function RoundsTokens(rounds: seq<Round>): int {
    if rounds == [] then 0 else RoundsTokens(rounds[..|rounds| - 1]) + ReplyTokens(rounds[|rounds| - 1].reply)
  }

  /** The prompt count of the latest reply that reports usage. */
  function LatestInput(rounds: seq<Round>): int {
    if rounds == [] then 0
    else match rounds[|rounds| - 1].reply.usage case Some(u) => u.promptTokens case None => LatestInput(rounds[..|rounds| - 1])
  }

  predicate SomeUnsearched(rounds: seq<Round>) {
    exists r <- rounds :: !r.searched
  }

  /** The i-th round: a non-final reply to the i-th call, searched exactly while the budget lasts. */
  ghost predicate RoundIsRight(world: World, maxUses: int, rounds: seq<Round>, i: nat)
    requires i < |rounds|
  {
    var up := (world.upstream)(i);
    var before := Searches(rounds[..i]);
    && up.Streamed? && !IsFinal(ReplyTo(up))
    && rounds[i] == Round(ReplyTo(up), before < maxUses, before)
  }

  ghost predicate RunInvariant(world: World, base: Base, maxUses: int, n: nat, st: LoopState) {
    && |st.rounds| == n
    && (forall i :: 0 <= i < n ==> RoundIsRight(world, maxUses, st.rounds, i))
    && TotalsOfRounds(world, base, st)
  }

  predicate TotalsOfRounds(world: World, base: Base, st: LoopState) {
    && st.messages == base.messages + RoundsMessages(world, st.rounds)
    && st.blocks == RoundsBlocks(world, st.rounds)
    && st.searches == Searches(st.rounds)
    && st.outputTokens == RoundsTokens(st.rounds)
    && st.inputTokens == LatestInput(st.rounds)
    && st.toolChoice == (if SomeUnsearched(st.rounds) then Never else base.toolChoice)
  }

  lemma RoundStays(world: World, maxUses: int, rounds: seq<Round>, r: Round, i: nat)
    requires i < |rounds| && RoundIsRight(world, maxUses, rounds, i)
    ensures RoundIsRight(world, maxUses, rounds + [r], i)
  {
    assert (rounds + [r])[..i] == rounds[..i];
  }

  /** What one more round adds to each total. */
  lemma OneMoreRound(world: World, rounds: seq<Round>, r: Round)
    ensures RoundsMessages(world, rounds + [r]) == RoundsMessages(world, rounds) + RoundMessages(world, r)
    ensures RoundsBlocks(world, rounds + [r]) == RoundsBlocks(world, rounds) + RoundBlocks(world, r)
    ensures Searches(rounds + [r]) == Searches(rounds) + RoundSearches(r)
    ensures RoundsTokens(rounds + [r]) == RoundsTokens(rounds) + ReplyTokens(r.reply)
    ensures LatestInput(rounds + [r])
            == (match r.reply.usage case Some(u) => u.promptTokens case None => LatestInput(rounds))
    ensures SomeUnsearched(rounds + [r]) <==> SomeUnsearched(rounds) || !r.searched
  {
    var more := rounds + [r];
    assert more[..|more| - 1] == rounds && more[|more| - 1] == r;
    assert r in more && forall x :: x in more <==> x in rounds || x == r;
  }

  lemma NextKeepsTotals(world: World, base: Base, maxUses: int, st: LoopState, reply: Reply)
    requires TotalsOfRounds(world, base, st)
    ensures TotalsOfRounds(world, base, NextState(world, maxUses, st, reply))
  {
    var r := Round(reply, st.searches < maxUses, st.searches);
    OneMoreRound(world, st.rounds, r);
    Associative(base.messages, RoundsMessages(world, st.rounds), RoundMessages(world, r));
  }

  lemma NextKeepsInvariant(world: World, base: Base, maxUses: int, n: nat, st: LoopState)
    requires RunInvariant(world, base, maxUses, n, st)
    requires (world.upstream)(n).Streamed? && !IsFinal(ReplyTo((world.upstream)(n)))
    ensures RunInvariant(world, base, maxUses, n + 1, NextState(world, maxUses, st, ReplyTo((world.upstream)(n))))
  {
    var reply := ReplyTo((world.upstream)(n));
    var r := Round(reply, st.searches < maxUses, st.searches);
    NextKeepsTotals(world, base, maxUses, st, reply);
    var rounds := st.rounds + [r];
    forall i | 0 <= i < n + 1 ensures RoundIsRight(world, maxUses, rounds, i) {
      if i < n {
        RoundStays(world, maxUses, st.rounds, r, i);
      } else {
        assert rounds[..n] == st.rounds && rounds[n] == r;
      }
    }
  }

  /**
   At every upstream call of every run, the history is the base messages followed by the
   rounds so far, the blocks and token counts are those of the rounds, and the tool choice
   is "none" once a round was denied its searches.
   */
  lemma EveryCallSeesRounds(world: World, base: Base, maxUses: int, n: nat)
    requires StateAt(world, base, maxUses, n).Some?
    ensures RunInvariant(world, base, maxUses, n, StateAt(world, base, maxUses, n).value)
  {
    CallSeesRounds(world, base, maxUses, n);
  }

  /** The run makes its n-th upstream call. */
  predicate MakesCall(world: World, base: Base, maxUses: int, n: nat) {
    StateAt(world, base, maxUses, n).Some?
  }

  ghost predicate SeesRounds(world: World, base: Base, maxUses: int, n: nat)
    requires MakesCall(world, base, maxUses, n)
  {
    RunInvariant(world, base, maxUses, n, StateAt(world, base, maxUses, n).value)
  }

  ghost predicate SeesRoundsIfMade(world: World, base: Base, maxUses: int, n: nat) {
    MakesCall(world, base, maxUses, n) ==> SeesRounds(world, base, maxUses, n)
  }

  lemma {:induction false} CallSeesRounds(world: World, base: Base, maxUses: int, n: nat)
    ensures SeesRoundsIfMade(world, base, maxUses, n)
  {
    if n == 0 {
      StartSeesNoRounds(world, base, maxUses);
    } else {
      CallSeesRounds(world, base, maxUses, n - 1);
      OneMoreCallSeesRounds(world, base, maxUses, n);
    }
  }

  lemma OneMoreCallSeesRounds(world: World, base: Base, maxUses: int, n: nat)
    requires n > 0 && SeesRoundsIfMade(world, base, maxUses, n - 1)
    ensures SeesRoundsIfMade(world, base, maxUses, n)
  {
    if MakesCall(world, base, maxUses, n) {
      var st := CallBefore(world, base, maxUses, n);
      NextKeepsInvariant(world, base, maxUses, n - 1, st);
    }
  }

  lemma StartSeesNoRounds(world: World, base: Base, maxUses: int)
    ensures SeesRounds(world, base, maxUses, 0)
  {
    assert base.messages + [] == base.messages;
  }

  /** A call after the first follows a reply that asked for searches only. */
  lemma CallBefore(world: World, base: Base, maxUses: int, n: nat) returns (st: LoopState)
    requires n > 0 && StateAt(world, base, maxUses, n).Some?
    ensures StateAt(world, base, maxUses, n - 1) == Some(st)
    ensures (world.upstream)(n - 1).Streamed? && !IsFinal(ReplyTo((world.upstream)(n - 1)))
    ensures StateAt(world, base, maxUses, n) == Some(NextState(world, maxUses, st, ReplyTo((world.upstream)(n - 1))))
  {
    st := StateAt(world, base, maxUses, n - 1).value;
  }

  // ----- pairing -----

  function CallIds(calls: seq<Call>): seq<string> {
    seq(|calls|, i requires 0 <= i < |calls| => calls[i].id)
  }

  /** A round adds the assistant turn with all its calls and exactly one tool message a call, in order, with its id. */
  ghost predicate AnswersInOrder(ms: seq<Message>, calls: seq<Call>) {
    && |ms| == |calls| + 1
    && ms[0].role.Assistant? && ms[0].toolCalls == AsToolCalls(calls)
    && forall i :: 0 <= i < |calls| ==> ms[i + 1].role.Tool? && ms[i + 1].toolCallId == calls[i].id
  }

  lemma {:induction false} SearchMessagesInOrder(world: World, calls: seq<Call>, first: nat)
    ensures var ms := SearchMessages(world, calls, first);
            |ms| == |calls| && forall i :: 0 <= i < |calls| ==> ms[i].role.Tool? && ms[i].toolCallId == calls[i].id
  {
    if calls != [] { SearchMessagesInOrder(world, calls[1..], first + 1); }
  }

  lemma {:induction false} LimitMessagesInOrder(calls: seq<Call>)
    ensures var ms := LimitMessages(calls);
            |ms| == |calls| && forall i :: 0 <= i < |calls| ==> ms[i].role.Tool? && ms[i].toolCallId == calls[i].id
  {
    if calls != [] { LimitMessagesInOrder(calls[1..]); }
  }

  lemma RoundAnswersInOrder(world: World, r: Round)
    ensures AnswersInOrder(RoundMessages(world, r), r.reply.toolCalls)
  {
    SearchMessagesInOrder(world, r.reply.toolCalls, r.first);
    LimitMessagesInOrder(r.reply.toolCalls);
  }

  lemma {:induction false} ToolsThenRest(announced: set<string>, tools: seq<Message>, rest: seq<Message>)
    requires forall m <- tools :: m.role.Tool? && m.toolCallId in announced
    ensures ToolPairing.PairedFrom(announced, tools + rest) <==> ToolPairing.PairedFrom(announced, rest)
    decreases |tools|
  {
    if tools == [] {
      assert tools + rest == rest;
    } else {
      assert tools[0] in tools;
      ToolsThenRest(announced, tools[1..], rest);
      assert (tools + rest)[0] == tools[0] && (tools + rest)[1..] == tools[1..] + rest;
    }
  }

  lemma RoundIsPaired(announced: set<string>, world: World, r: Round)
    ensures ToolPairing.PairedFrom(announced, RoundMessages(world, r))
  {
    var ms := RoundMessages(world, r);
    RoundAnswersInOrder(world, r);
    var ids := ToolPairing.Ids(ms[0].toolCalls);
    forall m | m in ms[1..] ensures m.role.Tool? && m.toolCallId in ids {
      var i :| 0 <= i < |ms[1..]| && ms[1..][i] == m;
      assert ms[i + 1] == m;
      assert ms[0].toolCalls[i].id == m.toolCallId && ms[0].toolCalls[i] in ms[0].toolCalls;
    }
    assert ms[1..] + [] == ms[1..];
    ToolsThenRest(ids, ms[1..], []);
  }

  /** A paired prefix stays paired when a round is appended. */
  lemma {:induction false} RoundAppends(announced: set<string>, before: seq<Message>, world: World, r: Round)
    requires ToolPairing.PairedFrom(announced, before)
    ensures ToolPairing.PairedFrom(announced, before + RoundMessages(world, r))
    decreases |before|
  {
    var ms := RoundMessages(world, r);
    if before == [] {
      assert before + ms == ms;
      RoundIsPaired(announced, world, r);
    } else {
      RoundAppends(ToolPairing.After(announced, before[0]), before[1..], world, r);
      HeadTail(before, ms);
    }
  }

  lemma {:induction false} RoundsArePaired(announced: set<string>, before: seq<Message>, world: World, rounds: seq<Round>)
    requires ToolPairing.PairedFrom(announced, before)
    ensures ToolPairing.PairedFrom(announced, before + RoundsMessages(world, rounds))
    decreases |rounds|
  {
    if rounds == [] {
      assert before + [] == before;
    } else {
      var init, last := rounds[..|rounds| - 1], rounds[|rounds| - 1];
      RoundsArePaired(announced, before, world, init);
      RoundAppends(announced, before + RoundsMessages(world, init), world, last);
      Associative(before, RoundsMessages(world, init), RoundMessages(world, last));
    }
  }

  /** Every history sent upstream pairs tool messages with their calls, if the base messages did. */
  lemma EveryHistoryIsPaired(world: World, base: Base, maxUses: int, n: nat)
    requires ToolPairing.Paired(base.messages) && StateAt(world, base, maxUses, n).Some?
    ensures ToolPairing.Paired(StateAt(world, base, maxUses, n).value.messages)
    ensures forall r <- StateAt(world, base, maxUses, n).value.rounds :: AnswersInOrder(RoundMessages(world, r), r.reply.toolCalls)
  {
    EveryCallSeesRounds(world, base, maxUses, n);
    var st := StateAt(world, base, maxUses, n).value;
    RoundsArePaired({}, base.messages, world, st.rounds);
    forall r | r in st.rounds ensures AnswersInOrder(RoundMessages(world, r), r.reply.toolCalls) {
      RoundAnswersInOrder(world, r);
    }
  }

  // ----- server tool blocks -----

  function SearchBlockCount(blocks: seq<ContentBlock>): nat {
    if blocks == [] then 0 else (if blocks[0].SearchContent? then 1 else 0) + SearchBlockCount(blocks[1..])
  }

  /** Each server_tool_use block is immediately followed by its result, and results stand nowhere else. */
  predicate Coupled(blocks: seq<ContentBlock>) {
    && (forall i :: 0 <= i < |blocks| && blocks[i].SearchContent? ==>
          i + 1 < |blocks| && blocks[i + 1].SearchResultContent? && blocks[i + 1].toolUseId == blocks[i].id)
    && (forall i :: 0 <= i < |blocks| && blocks[i].SearchResultContent? ==> i > 0 && blocks[i - 1].SearchContent?)
  }

  lemma CoupledConcat(a: seq<ContentBlock>, b: seq<ContentBlock>)
    requires Coupled(a) && Coupled(b)
    ensures Coupled(a + b)
  {
    var c := a + b;
    forall i | 0 <= i < |c| && c[i].SearchContent?
      ensures i + 1 < |c| && c[i + 1].SearchResultContent? && c[i + 1].toolUseId == c[i].id
    {
      if i < |a| { assert a[i] == c[i] && a[i + 1] == c[i + 1]; } else { assert b[i - |a|] == c[i] && b[i - |a| + 1] == c[i + 1]; }
    }
    forall i | 0 <= i < |c| && c[i].SearchResultContent? ensures i > 0 && c[i - 1].SearchContent? {
      if i < |a| { assert a[i] == c[i] && a[i - 1] == c[i - 1]; } else { assert b[i - |a|] == c[i] && b[i - |a| - 1] == c[i - 1]; }
    }
  }

  lemma {:induction false} CountConcat(a: seq<ContentBlock>, b: seq<ContentBlock>)
    ensures SearchBlockCount(a + b) == SearchBlockCount(a) + SearchBlockCount(b)
  {
    if a == [] {
      assert a + b == b;
    } else {
      CountConcat(a[1..], b);
      assert (a + b)[1..] == a[1..] + b;
    }
  }

  lemma {:induction false} SearchBlocksCoupled(world: World, calls: seq<Call>, first: nat)
    ensures Coupled(SearchBlocks(world, calls, first))
    ensures SearchBlockCount(SearchBlocks(world, calls, first)) == |calls|
  {
    if calls != [] {
      SearchBlocksCoupled(world, calls[1..], first + 1);
      var pair := [SearchContent(calls[0].id, (world.queryOf)(calls[0].arguments)),
                   SearchResultContent(calls[0].id, Hits((world.search)(first)))];
      var rest := SearchBlocks(world, calls[1..], first + 1);
      CoupledConcat(pair, rest);
      CountConcat(pair, rest);
      assert pair[1..] == [pair[1]];
    }
  }

  lemma RoundBlocksCoupled(world: World, r: Round)
    ensures Coupled(RoundBlocks(world, r)) && SearchBlockCount(RoundBlocks(world, r)) == RoundSearches(r)
  {
    SearchBlocksCoupled(world, r.reply.toolCalls, r.first);
    var searches := if r.searched then SearchBlocks(world, r.reply.toolCalls, r.first) else [];
    CoupledConcat(Preamble(world, r.reply), searches);
    CountConcat(Preamble(world, r.reply), searches);
  }

  lemma {:induction false} RoundsBlocksCoupled(world: World, rounds: seq<Round>)
    ensures Coupled(RoundsBlocks(world, rounds)) && SearchBlockCount(RoundsBlocks(world, rounds)) == Searches(rounds)
    decreases |rounds|
  {
    if rounds != [] {
      var init, last := rounds[..|rounds| - 1], rounds[|rounds| - 1];
      RoundsBlocksCoupled(world, init);
      RoundBlocksCoupled(world, last);
      CoupledConcat(RoundsBlocks(world, init), RoundBlocks(world, last));
      CountConcat(RoundsBlocks(world, init), RoundBlocks(world, last));
    }
  }

  // ----- the budget -----

  function LargestRound(rounds: seq<Round>): nat {
    if rounds == [] then 0
    else
      var before := LargestRound(rounds[..|rounds| - 1]);
      var size := |rounds[|rounds| - 1].reply.toolCalls|;
      if size > before then size else before
  }

  /**
   The budget is checked once a round: a run searches fewer times than the budget plus the
   size of its largest round, and never when the budget is zero or less. A round is
   searched exactly when fewer searches than the budget came before it.
   */
  lemma {:induction false} SearchBudget(world: World, maxUses: int, rounds: seq<Round>)
    requires forall i :: 0 <= i < |rounds| ==> RoundIsRight(world, maxUses, rounds, i)
    ensures maxUses <= 0 ==> Searches(rounds) == 0
    ensures maxUses > 0 ==> Searches(rounds) < maxUses + LargestRound(rounds)
    decreases |rounds|
  {
    if rounds != [] {
      var n := |rounds| - 1;
      var init := rounds[..n];
      RightPrefix(world, maxUses, rounds, n);
      SearchBudget(world, maxUses, init);
      assert RoundIsRight(world, maxUses, rounds, n);
    }
  }

  /** The round entered with budget left whose calls go past the budget. */
  ghost predicate RoundOvershoots(maxUses: int, rounds: seq<Round>, i: nat)
    requires i < |rounds|
  {
    Searches(rounds[..i]) < maxUses < Searches(rounds[..i]) + |rounds[i].reply.toolCalls|
  }

  /** The number of searches a run is meant to stay within. */
  function Budget(maxUses: int): nat {
    if maxUses < 0 then 0 else maxUses
  }

  /** A run exceeds its budget if and only if some round entered with budget left asks for more than is left. */
  lemma {:induction false} BudgetExceededExactly(world: World, maxUses: int, rounds: seq<Round>)
    requires forall i :: 0 <= i < |rounds| ==> RoundIsRight(world, maxUses, rounds, i)
    ensures Searches(rounds) > Budget(maxUses) <==> exists i :: 0 <= i < |rounds| && RoundOvershoots(maxUses, rounds, i)
    decreases |rounds|
  {
    if rounds != [] {
      var n := |rounds| - 1;
      RightPrefix(world, maxUses, rounds, n);
      BudgetExceededExactly(world, maxUses, rounds[..n]);
      LastOvershoots(world, maxUses, rounds);
      OvershootsLastOrBefore(maxUses, rounds);
    }
  }

  lemma OvershootsLastOrBefore(maxUses: int, rounds: seq<Round>)
    requires rounds != []
    ensures var n := |rounds| - 1;
            (exists i :: 0 <= i < |rounds| && RoundOvershoots(maxUses, rounds, i))
            <==> RoundOvershoots(maxUses, rounds, n) || exists i :: 0 <= i < n && RoundOvershoots(maxUses, rounds[..n], i)
  {
    var n := |rounds| - 1;
    forall i | 0 <= i < n ensures RoundOvershoots(maxUses, rounds[..n], i) <==> RoundOvershoots(maxUses, rounds, i) {
      OvershootOfPrefix(maxUses, rounds, n, i);
    }
  }

  lemma OvershootOfPrefix(maxUses: int, rounds: seq<Round>, n: nat, i: nat)
    requires i < n <= |rounds|
    ensures RoundOvershoots(maxUses, rounds[..n], i) <==> RoundOvershoots(maxUses, rounds, i)
  {
    assert rounds[..n][..i] == rounds[..i] && rounds[..n][i] == rounds[i];
  }

  /** The budget is first exceeded in the last round exactly when that round overshoots. */
  lemma LastOvershoots(world: World, maxUses: int, rounds: seq<Round>)
    requires rounds != [] && RoundIsRight(world, maxUses, rounds, |rounds| - 1)
    ensures var before := Searches(rounds[..|rounds| - 1]);
            Searches(rounds) > Budget(maxUses) <==> before > Budget(maxUses) || RoundOvershoots(maxUses, rounds, |rounds| - 1)
  {
  }

  // ----- a world in which the budget is exceeded -----

  function SearchFragments(index: nat, end: nat): seq<Fragment>
    requires index <= end
    decreases end - index
  {
    if index == end then [] else [Fragment(index, "call", WEB_SEARCH_TOOL_NAME, "{}")] + SearchFragments(index + 1, end)
  }

  lemma {:induction false} GatherSearches(t: CallMap, index: nat, end: nat)
    requires t.Valid() && index <= end && |t.order| == index
    requires forall i :: i in t.calls ==> i < index && t.calls[i].name == WEB_SEARCH_TOOL_NAME
    ensures var r := GatherFragments(t, SearchFragments(index, end));
            |r.order| == end && forall i :: i in r.calls ==> r.calls[i].name == WEB_SEARCH_TOOL_NAME
    decreases end - index
  {
    if index < end {
      var f := Fragment(index, "call", WEB_SEARCH_TOOL_NAME, "{}");
      var rest := SearchFragments(index + 1, end);
      assert SearchFragments(index, end)[0] == f && SearchFragments(index, end)[1..] == rest;
      assert WEB_SEARCH_TOOL_NAME != "";
      GatherSearches(GatherFragment(t, f), index + 1, end);
    }
  }

  /** A model that asks for `calls` searches at once, and then answers. */
  function EagerModel(calls: nat): nat -> UpstreamReply {
    n => Streamed(if n == 0 then [Data(Chunk("", "", None, [Choice("", SearchFragments(0, calls), None)]))] else [])
  }

  lemma EagerCalls(calls: nat)
    ensures var values := GatherFragments(Nothing.tools, SearchFragments(0, calls)).Values();
            |values| == calls && !HasClientCall(values)
  {
    GatherSearches(Nothing.tools, 0, calls);
    var t := GatherFragments(Nothing.tools, SearchFragments(0, calls));
    forall c | c in t.Values() ensures c.name == WEB_SEARCH_TOOL_NAME {
      var k :| 0 <= k < |t.order| && t.Values()[k] == c;
      var i := t.order[k];
      assert i in t.calls && c == t.calls[i];
    }
  }

  lemma OneChunkReply(chunk: Chunk)
    requires chunk.choices != []
    ensures ReplyTo(Streamed([Data(chunk)])).toolCalls == GatherFragments(Nothing.tools, chunk.choices[0].toolCalls).Values()
  {
    var events := [Data(chunk)];
    assert events[1..] == [] && Received(events) == [chunk] && [chunk][1..] == [];
    assert Gather(Nothing, [chunk]) == GatherChunk(Nothing, chunk);
  }

  lemma EagerReplies(calls: nat)
    requires calls > 0
    ensures var first := ReplyTo(EagerModel(calls)(0)); |first.toolCalls| == calls && !IsFinal(first)
    ensures IsFinal(ReplyTo(EagerModel(calls)(1)))
  {
    EagerCalls(calls);
    OneChunkReply(Chunk("", "", None, [Choice("", SearchFragments(0, calls), None)]));
    AllWebCalls(ReplyTo(EagerModel(calls)(0)).toolCalls);
  }

  /** Every positive budget can be exceeded. */
  lemma BudgetIsExceeded(world: World, base: Base, maxUses: nat, clientModel: string)
    requires maxUses > 0
    ensures var r := ResultFrom(world.(upstream := EagerModel(maxUses + 1)), maxUses, clientModel, Start(base), 0);
            r.Answer? && r.message.webSearchRequests == maxUses + 1
  {
    EagerReplies(maxUses + 1);
    var w := world.(upstream := EagerModel(maxUses + 1));
    var reply := ReplyTo((w.upstream)(0));
    var next := NextState(w, maxUses, Start(base), reply);
    assert ResultFrom(w, maxUses, clientModel, Start(base), 0) == ResultFrom(w, maxUses, clientModel, next, 1);
  }

  lemma RightPrefix(world: World, maxUses: int, rounds: seq<Round>, n: nat)
    requires n <= |rounds| && forall i :: 0 <= i < |rounds| ==> RoundIsRight(world, maxUses, rounds, i)
    ensures forall i :: 0 <= i < n ==> RoundIsRight(world, maxUses, rounds[..n], i)
  {
    forall i | 0 <= i < n ensures RoundIsRight(world, maxUses, rounds[..n], i) {
      assert RoundIsRight(world, maxUses, rounds, i);
      assert rounds[..n][..i] == rounds[..i];
    }
  }

  /** From `early` to `late` everything only grew, and if a round had been denied, nothing was searched. */
  predicate StaysDenied(maxUses: int, early: LoopState, late: LoopState) {
    && early.rounds <= late.rounds && early.messages <= late.messages && early.blocks <= late.blocks
    && early.searches <= late.searches
    && (SomeUnsearched(early.rounds) ==>
          early.toolChoice == Never && late.toolChoice == Never && late.searches == early.searches >= maxUses)
  }

  /** One more round: everything only grows, and nothing is searched once the budget is spent. */
  predicate Continues(maxUses: int, st: LoopState, next: LoopState) {
    && st.rounds <= next.rounds && st.messages <= next.messages && st.blocks <= next.blocks
    && st.searches <= next.searches
    && (st.searches >= maxUses ==> next.searches == st.searches && next.toolChoice == Never)
  }

  /** The states before the calls of a run, and none from where it ends. */
  function Trace(world: World, base: Base, maxUses: int): nat -> Option<LoopState> {
    (k: nat) => StateAt(world, base, maxUses, k)
  }

  predicate ContinuesAt(maxUses: int, trace: nat -> Option<LoopState>, k: nat) {
    trace(k + 1).Some? ==> trace(k).Some? && Continues(maxUses, trace(k).value, trace(k + 1).value)
  }

  lemma TraceContinues(world: World, base: Base, maxUses: int, k: nat)
    ensures ContinuesAt(maxUses, Trace(world, base, maxUses), k)
  {
    if StateAt(world, base, maxUses, k + 1).Some? {
      var st := CallBefore(world, base, maxUses, k + 1);
      NextContinues(world, maxUses, st, ReplyTo((world.upstream)(k)));
    }
  }

  lemma NextContinues(world: World, maxUses: int, st: LoopState, reply: Reply)
    ensures Continues(maxUses, st, NextState(world, maxUses, st, reply))
  {
  }

  lemma {:induction false} TraceStaysDenied(maxUses: int, trace: nat -> Option<LoopState>, n: nat, m: nat)
    requires n <= m && trace(m).Some? && forall k :: ContinuesAt(maxUses, trace, k)
    ensures trace(n).Some?
    ensures StaysDenied(maxUses, trace(n).value, trace(n).value) ==> StaysDenied(maxUses, trace(n).value, trace(m).value)
    decreases m
  {
    if n < m {
      assert ContinuesAt(maxUses, trace, m - 1);
      TraceStaysDenied(maxUses, trace, n, m - 1);
    }
  }

  /** Once a round is denied its searches, so is every later one, and the tool choice stays "none". */
  lemma DeniedStaysDenied(world: World, base: Base, maxUses: int, n: nat, m: nat) returns (early: LoopState, late: LoopState)
    requires n <= m && StateAt(world, base, maxUses, m).Some?
    ensures StateAt(world, base, maxUses, n) == Some(early) && StateAt(world, base, maxUses, m) == Some(late)
    ensures StaysDenied(maxUses, early, late)
  {
    var trace := Trace(world, base, maxUses);
    forall k: nat ensures ContinuesAt(maxUses, trace, k) { TraceContinues(world, base, maxUses, k); }
    TraceStaysDenied(maxUses, trace, n, m);
    early, late := trace(n).value, trace(m).value;
    DeniedNow(world, base, maxUses, n);
  }

  lemma DeniedNow(world: World, base: Base, maxUses: int, n: nat)
    requires MakesCall(world, base, maxUses, n)
    ensures var st := StateAt(world, base, maxUses, n).value; StaysDenied(maxUses, st, st)
  {
    EveryCallSeesRounds(world, base, maxUses, n);
    DeniedMeansSpent(world, maxUses, StateAt(world, base, maxUses, n).value.rounds);
  }

  lemma {:induction false} DeniedMeansSpent(world: World, maxUses: int, rounds: seq<Round>)
    requires forall i :: 0 <= i < |rounds| ==> RoundIsRight(world, maxUses, rounds, i)
    ensures SomeUnsearched(rounds) ==> Searches(rounds) >= maxUses
    decreases |rounds|
  {
    if rounds != [] {
      var n := |rounds| - 1;
      RightPrefix(world, maxUses, rounds, n);
      DeniedMeansSpent(world, maxUses, rounds[..n]);
      assert RoundIsRight(world, maxUses, rounds, n);
      if SomeUnsearched(rounds) {
        var r :| r in rounds && !r.searched;
        assert rounds == rounds[..n] + [rounds[n]];
        if r != rounds[n] { assert r in rounds[..n]; }
      }
    }
  }

  // ----- the answer -----

  lemma AnswerStep(world: World, maxUses: int, clientModel: string, st: LoopState, n: nat)
    requires n <= HARD_ITERATION_CAP + 1 && ResultFrom(world, maxUses, clientModel, st, n).Answer?
    ensures n <= HARD_ITERATION_CAP && (world.upstream)(n).Streamed?
    ensures var reply := ReplyTo((world.upstream)(n));
            ResultFrom(world, maxUses, clientModel, st, n)
            == if IsFinal(reply) then Answer(Assemble(world, clientModel, st, reply))
               else ResultFrom(world, maxUses, clientModel, NextState(world, maxUses, st, reply), n + 1)
  {
  }

  /** `result` is assembled from the state before the k-th upstream call and the final reply to it. */
  predicate AnsweredAt(world: World, base: Base, maxUses: int, clientModel: string, k: nat, result: Result) {
    && k <= HARD_ITERATION_CAP && StateAt(world, base, maxUses, k).Some?
    && (world.upstream)(k).Streamed? && IsFinal(ReplyTo((world.upstream)(k)))
    && result == Answer(Assemble(world, clientModel, StateAt(world, base, maxUses, k).value, ReplyTo((world.upstream)(k))))
  }

  lemma AnswerOrGoOn(world: World, base: Base, maxUses: int, clientModel: string, n: nat, st: LoopState)
    requires n <= HARD_ITERATION_CAP + 1 && StateAt(world, base, maxUses, n) == Some(st)
    requires ResultFrom(world, maxUses, clientModel, st, n).Answer?
    ensures n <= HARD_ITERATION_CAP && (world.upstream)(n).Streamed?
    ensures var reply := ReplyTo((world.upstream)(n));
            var result := ResultFrom(world, maxUses, clientModel, st, n);
            var next := NextState(world, maxUses, st, reply);
            if IsFinal(reply) then AnsweredAt(world, base, maxUses, clientModel, n, result)
            else StateAt(world, base, maxUses, n + 1) == Some(next)
                 && result == ResultFrom(world, maxUses, clientModel, next, n + 1)
  {
    AnswerStep(world, maxUses, clientModel, st, n);
    StateAfter(world, base, maxUses, n, st);
  }

  /** An answer is assembled from the rounds before the first final reply. */
  lemma {:induction false} AnswerComesFrom(world: World, base: Base, maxUses: int, clientModel: string, n: nat, st: LoopState)
    returns (k: nat)
    requires n <= HARD_ITERATION_CAP + 1 && StateAt(world, base, maxUses, n) == Some(st)
    requires ResultFrom(world, maxUses, clientModel, st, n).Answer?
    ensures n <= k && AnsweredAt(world, base, maxUses, clientModel, k, ResultFrom(world, maxUses, clientModel, st, n))
    decreases HARD_ITERATION_CAP + 1 - n
  {
    AnswerOrGoOn(world, base, maxUses, clientModel, n, st);
    var reply := ReplyTo((world.upstream)(n));
    if IsFinal(reply) {
      k := n;
    } else {
      k := AnswerComesFrom(world, base, maxUses, clientModel, n + 1, NextState(world, maxUses, st, reply));
    }
  }

  lemma FinalBlocksHaveNoSearch(reply: Reply, clientModel: string, parse: InputParser)
    ensures var last := ToAnthropic(AsResponse(reply), Some(clientModel), parse).content;
            && Coupled(last) && SearchBlockCount(last) == 0
            && last == TextBlocks(AsContent(reply.content)) + ToolUseBlocks(reply.toolCalls, parse)
  {
    BlocksOfOne(ChatChoice(AsContent(reply.content), reply.toolCalls, reply.finish), parse);
    var last := TextBlocks(AsContent(reply.content)) + ToolUseBlocks(reply.toolCalls, parse);
    NoSearchCount(last);
  }

  lemma {:induction false} NoSearchCount(blocks: seq<ContentBlock>)
    requires forall b <- blocks :: !b.SearchContent?
    ensures SearchBlockCount(blocks) == 0
  {
    if blocks != [] { NoSearchCount(blocks[1..]); }
  }

  /**
   The assembled answer: server tool blocks coupled with their results, as many as the
   search count it reports, followed by the final reply; output tokens of all rounds added.
   */
  lemma AnswerIsConsistent(world: World, base: Base, maxUses: int, clientModel: string) returns (k: nat)
    requires ResultFrom(world, maxUses, clientModel, Start(base), 0).Answer?
    ensures k <= HARD_ITERATION_CAP && StateAt(world, base, maxUses, k).Some? && (world.upstream)(k).Streamed?
    ensures var m := ResultFrom(world, maxUses, clientModel, Start(base), 0).message;
            var rounds := StateAt(world, base, maxUses, k).value.rounds;
            var reply := ReplyTo((world.upstream)(k));
            && IsFinal(reply)
            && Coupled(m.content) && SearchBlockCount(m.content) == m.webSearchRequests
            && m.content == RoundsBlocks(world, rounds) + (TextBlocks(AsContent(reply.content)) + ToolUseBlocks(reply.toolCalls, world.parseInput))
            && m.webSearchRequests == Searches(rounds)
            && m.outputTokens == RoundsTokens(rounds) + ReplyTokens(reply)
            && m.inputTokens == (match reply.usage case Some(u) => u.promptTokens case None => LatestInput(rounds))
            && m.model == clientModel
            && (maxUses <= 0 ==> m.webSearchRequests == 0)
            && (maxUses > 0 ==> m.webSearchRequests < maxUses + LargestRound(rounds))
            && (m.webSearchRequests > Budget(maxUses) <==> exists i :: 0 <= i < |rounds| && RoundOvershoots(maxUses, rounds, i))
  {
    k := AnswerComesFrom(world, base, maxUses, clientModel, 0, Start(base));
    EveryCallSeesRounds(world, base, maxUses, k);
    var st := StateAt(world, base, maxUses, k).value;
    var reply := ReplyTo((world.upstream)(k));
    var last := ToAnthropic(AsResponse(reply), Some(clientModel), world.parseInput).content;
    RoundsBlocksCoupled(world, st.rounds);
    FinalBlocksHaveNoSearch(reply, clientModel, world.parseInput);
    CoupledConcat(st.blocks, last);
    CountConcat(st.blocks, last);
    SearchBudget(world, maxUses, st.rounds);
    BudgetExceededExactly(world, maxUses, st.rounds);
  }
}
