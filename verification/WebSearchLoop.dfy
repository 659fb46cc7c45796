/**
 The agent loop that emulates Anthropic's web search (`runWebSearchLoop`,
 routes/messages/web-search-handler.ts), against a model and a search provider that may
 answer anything.
 */
module WebSearchLoop {
  import opened Common
  import opened StreamEvents
  import opened Aggregation
  import opened ChatResponses
  import opened ContextFit

  const WEB_SEARCH_TOOL_NAME := "web_search"
  const HARD_ITERATION_CAP := 10
  const LIMIT_NOTE := "Web search limit reached. Answer using the information already gathered; do not request more searches."

  datatype ToolChoice = Unset | Auto | Required | Never | Named(name: string)

  datatype UpstreamReply = Failing | NotStreaming | Streamed(events: seq<RawEvent>)

  datatype SearchOutcome = Found(hits: seq<Hit>) | Unavailable(message: string)

  /** The world outside: the reply to the n-th upstream call, the outcome of the n-th search, and library functions. */
  datatype World = World(
    upstream: nat -> UpstreamReply,
    search: nat -> SearchOutcome,
    queryOf: string -> string,
    format: seq<Hit> -> string,
    isBlank: string -> bool,
    parseInput: InputParser)

  datatype Base = Base(messages: seq<Message>, toolChoice: ToolChoice)

  datatype Assembled = Assembled(id: string, model: string, content: seq<ContentBlock>, stopReason: Option<StopReason>,
                                 inputTokens: int, outputTokens: int, webSearchRequests: nat)

  datatype Result = Answer(message: Assembled) | UpstreamFailed | CapExceeded

  // ----- one round -----

  /** A round that went on: the model's reply, whether its searches were run, and the number of the first one. */
  datatype Round = Round(reply: Reply, searched: bool, first: nat)

  datatype LoopState = LoopState(messages: seq<Message>, blocks: seq<ContentBlock>, searches: nat,
                                 inputTokens: int, outputTokens: int, toolChoice: ToolChoice, rounds: seq<Round>)

  function WebCalls(calls: seq<Call>): seq<Call> {
    if calls == [] then []
    else if calls[0].name == WEB_SEARCH_TOOL_NAME then [calls[0]] + WebCalls(calls[1..])
    else WebCalls(calls[1..])
  }

  predicate HasClientCall(calls: seq<Call>) {
    exists c <- calls :: c.name != WEB_SEARCH_TOOL_NAME
  }

  /** No web search call, or some call the client must run. */
  predicate IsFinal(reply: Reply) {
    WebCalls(reply.toolCalls) == [] || HasClientCall(reply.toolCalls)
  }

  function AsToolCalls(calls: seq<Call>): seq<ToolCall> {
    seq(|calls|, i requires 0 <= i < |calls| => ToolCall(calls[i].id, calls[i].name, calls[i].arguments))
  }

  function AssistantTurn(reply: Reply): Message {
    Message(Assistant, match reply.content case None => NoContent case Some(t) => Text(t), AsToolCalls(reply.toolCalls), "")
  }

  function Hits(outcome: SearchOutcome): seq<Hit> {
    match outcome case Found(hits) => hits case Unavailable(_) => []
  }

  function AnswerText(world: World, outcome: SearchOutcome): string {
    if outcome.Unavailable? && outcome.message != "" then "Search error: " + outcome.message
    else (world.format)(Hits(outcome))
  }

  function SearchMessages(world: World, calls: seq<Call>, first: nat): seq<Message> {
    if calls == [] then []
    else [Message(Tool, Text(AnswerText(world, (world.search)(first))), [], calls[0].id)]
         + SearchMessages(world, calls[1..], first + 1)
  }

  function LimitMessages(calls: seq<Call>): seq<Message> {
    if calls == [] then [] else [Message(Tool, Text(LIMIT_NOTE), [], calls[0].id)] + LimitMessages(calls[1..])
  }

  function SearchBlocks(world: World, calls: seq<Call>, first: nat): seq<ContentBlock> {
    if calls == [] then []
    else [SearchContent(calls[0].id, (world.queryOf)(calls[0].arguments)),
          SearchResultContent(calls[0].id, Hits((world.search)(first)))]
         + SearchBlocks(world, calls[1..], first + 1)
  }

  function Preamble(world: World, reply: Reply): seq<ContentBlock> {
    if reply.content.Some? && !(world.isBlank)(reply.content.value) then [TextContent(reply.content.value)] else []
  }

  /** What a round adds to the history: the assistant turn, then one tool message a call. */
  function RoundMessages(world: World, r: Round): seq<Message> {
    [AssistantTurn(r.reply)]
    + (if r.searched then SearchMessages(world, r.reply.toolCalls, r.first) else LimitMessages(r.reply.toolCalls))
  }

  function RoundBlocks(world: World, r: Round): seq<ContentBlock> {
    Preamble(world, r.reply) + (if r.searched then SearchBlocks(world, r.reply.toolCalls, r.first) else [])
  }

  function RoundSearches(r: Round): nat {
    if r.searched then |r.reply.toolCalls| else 0
  }

  function Counted(st: LoopState, reply: Reply): LoopState {
    st.(inputTokens := match reply.usage case None => st.inputTokens case Some(u) => u.promptTokens,
        outputTokens := st.outputTokens + (match reply.usage case None => 0 case Some(u) => u.completionTokens))
  }

  function NextState(world: World, maxUses: int, st: LoopState, reply: Reply): LoopState {
    var c := Counted(st, reply);
    var r := Round(reply, st.searches < maxUses, st.searches);
    c.(messages := st.messages + RoundMessages(world, r),
       blocks := st.blocks + RoundBlocks(world, r),
       searches := st.searches + RoundSearches(r),
       toolChoice := if r.searched then st.toolChoice else Never,
       rounds := st.rounds + [r])
  }

  function Assemble(world: World, clientModel: string, st: LoopState, reply: Reply): Assembled {
    var c := Counted(st, reply);
    var last := ToAnthropic(AsResponse(reply), Some(clientModel), world.parseInput);
    Assembled(last.id, last.model, st.blocks + last.content, last.stopReason, c.inputTokens, c.outputTokens, st.searches)
  }

  function ReplyTo(reply: UpstreamReply): Reply
    requires reply.Streamed?
  {
    ReplyOf(Gather(Nothing, Received(reply.events)))
  }

  // ----- whole runs -----

  function Start(base: Base): LoopState {
    LoopState(base.messages, [], 0, 0, 0, base.toolChoice, [])
  }

  /** The loop's state before its n-th upstream call, if it makes that call. */
  function StateAt(world: World, base: Base, maxUses: int, n: nat): Option<LoopState> {
    if n == 0 then Some(Start(base))
    else
      match StateAt(world, base, maxUses, n - 1)
      case None => None
      case Some(st) =>
        if n > HARD_ITERATION_CAP + 1 then None
        else
          var up := (world.upstream)(n - 1);
          if up.Streamed? && !IsFinal(ReplyTo(up)) then Some(NextState(world, maxUses, st, ReplyTo(up))) else None
  }

  /** What the run comes to from its n-th upstream call on. */
  function ResultFrom(world: World, maxUses: int, clientModel: string, st: LoopState, n: nat): Result
    requires n <= HARD_ITERATION_CAP + 1
    decreases HARD_ITERATION_CAP + 1 - n
  {
    if n == HARD_ITERATION_CAP + 1 then CapExceeded
    else
      var up := (world.upstream)(n);
      if !up.Streamed? then UpstreamFailed
      else if IsFinal(ReplyTo(up)) then Answer(Assemble(world, clientModel, st, ReplyTo(up)))
      else ResultFrom(world, maxUses, clientModel, NextState(world, maxUses, st, ReplyTo(up)), n + 1)
  }

  datatype UpstreamCall = UpstreamCall(messages: seq<Message>, toolChoice: ToolChoice)

  lemma {:induction false} AllWebCalls(calls: seq<Call>)
    requires !HasClientCall(calls)
    ensures WebCalls(calls) == calls
  {
    if calls != [] {
      assert calls[0] in calls;
      AllWebCalls(calls[1..]);
      assert calls == [calls[0]] + calls[1..];
    }
  }

  method AnswerCalls(world: World, webCalls: seq<Call>, searched: bool, first: nat)
    returns (messages: seq<Message>, blocks: seq<ContentBlock>, searchCount: nat)
    ensures messages == if searched then SearchMessages(world, webCalls, first) else LimitMessages(webCalls)
    ensures blocks == if searched then SearchBlocks(world, webCalls, first) else []
    ensures searchCount == if searched then first + |webCalls| else first
  {
    messages, blocks, searchCount := [], [], first;
    if !searched {
      for k := 0 to |webCalls|
        invariant messages + LimitMessages(webCalls[k..]) == LimitMessages(webCalls)
      {
        assert webCalls[k..][0] == webCalls[k] && webCalls[k..][1..] == webCalls[k + 1..];
        messages := messages + [Message(Tool, Text(LIMIT_NOTE), [], webCalls[k].id)];
      }
      return;
    }
    for k := 0 to |webCalls|
      invariant searchCount == first + k
      invariant messages + SearchMessages(world, webCalls[k..], searchCount) == SearchMessages(world, webCalls, first)
      invariant blocks + SearchBlocks(world, webCalls[k..], searchCount) == SearchBlocks(world, webCalls, first)
    {
      assert webCalls[k..][0] == webCalls[k] && webCalls[k..][1..] == webCalls[k + 1..];
      var tc := webCalls[k];
      var query := (world.queryOf)(tc.arguments);
      var outcome := (world.search)(searchCount);
      var results := Hits(outcome);
      searchCount := searchCount + 1;
      Associative(blocks, [SearchContent(tc.id, query), SearchResultContent(tc.id, results)],
                  SearchBlocks(world, webCalls[k + 1..], searchCount));
      blocks := blocks + [SearchContent(tc.id, query), SearchResultContent(tc.id, results)];
      Associative(messages, [Message(Tool, Text(AnswerText(world, outcome)), [], tc.id)],
                  SearchMessages(world, webCalls[k + 1..], searchCount));
      messages := messages + [Message(Tool, Text(AnswerText(world, outcome)), [], tc.id)];
    }
  }

  /** One round of the loop body after a reply that asks for searches. */
  method PlayRound(world: World, maxUses: int, st: LoopState, reply: Reply) returns (next: LoopState)
    requires !IsFinal(reply)
    ensures next == NextState(world, maxUses, st, reply)
  {
    AllWebCalls(reply.toolCalls);
    var webCalls := WebCalls(reply.toolCalls);
    var preBlocks := st.blocks;
    if reply.content.Some? && !(world.isBlank)(reply.content.value) {
      preBlocks := preBlocks + [TextContent(reply.content.value)];
    }
    assert preBlocks == st.blocks + Preamble(world, reply);
    var messages := st.messages + [AssistantTurn(reply)];
    var toolChoice := st.toolChoice;
    var searched := st.searches < maxUses;
    var answers, blocks, searchCount := AnswerCalls(world, webCalls, searched, st.searches);
    if !searched {
      toolChoice := Never;
    }
    var c := Counted(st, reply);
    Associative(st.messages, [AssistantTurn(reply)], answers);
    Associative(st.blocks, Preamble(world, reply), blocks);
    next := LoopState(messages + answers, preBlocks + blocks, searchCount, c.inputTokens, c.outputTokens, toolChoice,
                      st.rounds + [Round(reply, searched, st.searches)]);
  }

  /** Every upstream call sent the history and tool choice of the state it was made in. */
  ghost predicate Logged(world: World, base: Base, maxUses: int, calls: seq<UpstreamCall>) {
    forall n :: 0 <= n < |calls| ==> WasCalled(StateAt(world, base, maxUses, n), calls[n])
  }

  predicate WasCalled(st: Option<LoopState>, call: UpstreamCall) {
    st.Some? && call == UpstreamCall(st.value.messages, st.value.toolChoice)
  }

  lemma LogOneMore(world: World, base: Base, maxUses: int, calls: seq<UpstreamCall>, st: LoopState)
    requires Logged(world, base, maxUses, calls) && StateAt(world, base, maxUses, |calls|) == Some(st)
    ensures Logged(world, base, maxUses, calls + [UpstreamCall(st.messages, st.toolChoice)])
  {
    var more := calls + [UpstreamCall(st.messages, st.toolChoice)];
    forall n | 0 <= n < |more| ensures WasCalled(StateAt(world, base, maxUses, n), more[n]) {
      if n < |calls| {
        assert more[n] == calls[n] && WasCalled(StateAt(world, base, maxUses, n), calls[n]);
      } else {
        assert n == |calls|;
      }
    }
  }

  lemma StateAfter(world: World, base: Base, maxUses: int, n: nat, st: LoopState)
    requires n <= HARD_ITERATION_CAP && StateAt(world, base, maxUses, n) == Some(st)
    ensures var up := (world.upstream)(n);
            StateAt(world, base, maxUses, n + 1)
            == if up.Streamed? && !IsFinal(ReplyTo(up)) then Some(NextState(world, maxUses, st, ReplyTo(up))) else None
  {
  }

  /** `runWebSearchLoop`, with the upstream calls it made: at most eleven, and all eleven when it gives up. */
  method RunWebSearchLoop(world: World, base: Base, maxUses: int, clientModel: string)
    returns (result: Result, calls: seq<UpstreamCall>)
    ensures result == ResultFrom(world, maxUses, clientModel, Start(base), 0)
    ensures 1 <= |calls| <= 11
    ensures result.CapExceeded? ==> |calls| == 11
    ensures Logged(world, base, maxUses, calls)
    ensures !result.CapExceeded? ==> StateAt(world, base, maxUses, |calls|).None?
  {
    calls := [];
    var st := Start(base);
    var iter := 0;
    ghost var answer := ResultFrom(world, maxUses, clientModel, st, 0);
    while iter <= HARD_ITERATION_CAP
      invariant 0 <= iter <= HARD_ITERATION_CAP + 1
      invariant |calls| == iter
      invariant StateAt(world, base, maxUses, iter) == Some(st)
      invariant ResultFrom(world, maxUses, clientModel, st, iter) == answer
      invariant Logged(world, base, maxUses, calls)
    {
      LogOneMore(world, base, maxUses, calls, st);
      calls := calls + [UpstreamCall(st.messages, st.toolChoice)];
      StateAfter(world, base, maxUses, iter, st);
      var up := (world.upstream)(iter);
      if !up.Streamed? {
        return UpstreamFailed, calls;
      }
      var reply := AggregateStream(up.events);
      if WebCalls(reply.toolCalls) == [] || HasClientCall(reply.toolCalls) {
        return Answer(Assemble(world, clientModel, st, reply)), calls;
      }
      st := PlayRound(world, maxUses, st, reply);
      iter := iter + 1;
    }
    result := CapExceeded;
  }
}
