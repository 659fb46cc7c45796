/**
 Translation of OpenAI chat-completion chunks into Anthropic stream events
 (routes/messages/stream-translation.ts): the mutable translator, the function it
 computes, and what a client reading the events can rely on.
 */
module StreamTranslation {
  import opened Common
  import opened JsonValues
  import opened StreamEvents

  // ----- chunks; "" stands for an absent string, which the source treats alike -----

  datatype FinishReason = Stop | Length | ToolCalls | ContentFilter

  datatype Usage = Usage(promptTokens: int, completionTokens: int, cachedTokens: Option<int>)

  datatype Fragment = Fragment(index: int, id: string, name: string, arguments: string) {
    predicate Announces() { id != "" && name != "" }
  }

  datatype Choice = Choice(content: string, toolCalls: seq<Fragment>, finish: Option<FinishReason>)

  datatype Chunk = Chunk(id: string, model: string, usage: Option<Usage>, choices: seq<Choice>)

  function MapStopReason(f: FinishReason): StopReason {
    match f
    case Stop => EndTurn
    case Length => MaxTokens
    case ToolCalls => ToolUse
    case ContentFilter => Refusal
  }

  /** Anthropic counts cached reads apart from the input tokens. */
  function InputUsage(usage: Option<Usage>, outputTokens: int): WireUsage {
    match usage
    case None => WireUsage(Some(0), outputTokens, None, None)
    case Some(u) => WireUsage(Some(u.promptTokens - u.cachedTokens.GetOr(0)), outputTokens, u.cachedTokens, None)
  }

  // ----- what one chunk does to the translator's state -----

  datatype ToolInfo = ToolInfo(id: string, name: string, blockIndex: nat)

  datatype State = State(started: bool, index: nat, open: bool, tools: map<int, ToolInfo>)

  datatype Output = Output(state: State, events: seq<Event>)

  const Initial := State(false, 0, false, map[])

  predicate ToolBlockOpen(s: State) {
    s.open && exists i :: i in s.tools && s.tools[i].blockIndex == s.index
  }

  function Close(s: State): Output {
    if s.open then Output(s.(index := s.index + 1, open := false), [BlockStop(s.index)]) else Output(s, [])
  }

  function StartStep(s: State, chunk: Chunk): Output {
    if s.started then Output(s, [])
    else Output(s.(started := true), [MessageStart(chunk.id, chunk.model, InputUsage(chunk.usage, 0))])
  }

  function TextStep(s: State, content: string): Output {
    if content == "" then Output(s, [])
    else if s.open && !ToolBlockOpen(s) then Output(s, [BlockDelta(s.index, TextDelta(content))])
    else
      var closed := Close(s);
      Output(closed.state.(open := true),
             closed.events + [BlockStart(closed.state.index, TextHeader),
                              BlockDelta(closed.state.index, TextDelta(content))])
  }

  function AnnounceStep(s: State, f: Fragment): Output {
    if !f.Announces() then Output(s, [])
    else
      var closed := Close(s);
      var index := closed.state.index;
      Output(closed.state.(open := true, tools := s.tools[f.index := ToolInfo(f.id, f.name, index)]),
             closed.events + [BlockStart(index, ToolHeader(f.id, f.name, Obj([])))])
  }

  function ArgumentEvents(s: State, f: Fragment): seq<Event> {
    if f.arguments != "" && f.index in s.tools
    then [BlockDelta(s.tools[f.index].blockIndex, JsonDelta(f.arguments))] else []
  }

  function FragmentStep(s: State, f: Fragment): Output {
    var a := AnnounceStep(s, f);
    Output(a.state, a.events + ArgumentEvents(a.state, f))
  }

  function FragmentsStep(s: State, fs: seq<Fragment>): Output
    decreases |fs|
  {
    if fs == [] then Output(s, [])
    else
      var head := FragmentStep(s, fs[0]);
      var rest := FragmentsStep(head.state, fs[1..]);
      Output(rest.state, head.events + rest.events)
  }

  lemma FragmentsHead(s: State, fs: seq<Fragment>, k: nat)
    requires k < |fs|
    ensures var head := FragmentStep(s, fs[k]);
            var rest := FragmentsStep(head.state, fs[k + 1..]);
            FragmentsStep(s, fs[k..]) == Output(rest.state, head.events + rest.events)
  {
    assert fs[k..][0] == fs[k] && fs[k..][1..] == fs[k + 1..];
  }

  function FinishStep(s: State, chunk: Chunk, finish: Option<FinishReason>): Output {
    match finish
    case None => Output(s, [])
    case Some(f) =>
      var output := match chunk.usage case None => 0 case Some(u) => u.completionTokens;
      Output(s.(open := false),
             (if s.open then [BlockStop(s.index)] else [])
             + [MessageDelta(Some(MapStopReason(f)), InputUsage(chunk.usage, output)), MessageStop])
  }

  function ChunkStep(s: State, chunk: Chunk): Output {
    if chunk.choices == [] then Output(s, [])
    else
      var choice := chunk.choices[0];
      var a := StartStep(s, chunk);
      var b := TextStep(a.state, choice.content);
      var c := FragmentsStep(b.state, choice.toolCalls);
      var d := FinishStep(c.state, chunk, choice.finish);
      Output(d.state, a.events + b.events + c.events + d.events)
  }

  /** A whole stream of chunks. */
  function Run(s: State, chunks: seq<Chunk>): Output
    decreases |chunks|
  {
    if chunks == [] then Output(s, [])
    else
      var head := ChunkStep(s, chunks[0]);
      var rest := Run(head.state, chunks[1..]);
      Output(rest.state, head.events + rest.events)
  }

  // ----- the translator itself -----

  class AnthropicStreamState {
    var messageStartSent: bool
    var contentBlockIndex: nat
    var contentBlockOpen: bool
    var toolCalls: map<int, ToolInfo>

    function View(): State
      reads this
    {
      State(messageStartSent, contentBlockIndex, contentBlockOpen, toolCalls)
    }

    constructor ()
      ensures View() == Initial
    {
      messageStartSent, contentBlockIndex, contentBlockOpen, toolCalls := false, 0, false, map[];
    }

    predicate IsToolBlockOpen()
      reads this
    {
      if !contentBlockOpen then false
      else exists i :: i in toolCalls && toolCalls[i].blockIndex == contentBlockIndex
    }

    method CloseBlock() returns (events: seq<Event>)
      modifies this
      ensures Output(View(), events) == Close(old(View()))
    {
      events := [];
      if contentBlockOpen {
        events := [BlockStop(contentBlockIndex)];
        contentBlockIndex := contentBlockIndex + 1;
        contentBlockOpen := false;
      }
    }

    method EmitStart(chunk: Chunk) returns (events: seq<Event>)
      modifies this
      ensures Output(View(), events) == StartStep(old(View()), chunk)
    {
      events := [];
      if !messageStartSent {
        events := [MessageStart(chunk.id, chunk.model, InputUsage(chunk.usage, 0))];
        messageStartSent := true;
      }
    }

    method EmitText(content: string) returns (events: seq<Event>)
      modifies this
      ensures Output(View(), events) == TextStep(old(View()), content)
    {
      events := [];
      if content != "" {
        if IsToolBlockOpen() {
          events := CloseBlock();
        }
        if !contentBlockOpen {
          events := events + [BlockStart(contentBlockIndex, TextHeader)];
          contentBlockOpen := true;
        }
        events := events + [BlockDelta(contentBlockIndex, TextDelta(content))];
      }
    }

    method EmitFragment(f: Fragment) returns (events: seq<Event>)
      modifies this
      ensures Output(View(), events) == FragmentStep(old(View()), f)
    {
      events := [];
      if f.id != "" && f.name != "" {
        events := CloseBlock();
        toolCalls := toolCalls[f.index := ToolInfo(f.id, f.name, contentBlockIndex)];
        events := events + [BlockStart(contentBlockIndex, ToolHeader(f.id, f.name, Obj([])))];
        contentBlockOpen := true;
      }
      if f.arguments != "" {
        if f.index in toolCalls {
          events := events + [BlockDelta(toolCalls[f.index].blockIndex, JsonDelta(f.arguments))];
        }
      }
    }

    method EmitFragments(fs: seq<Fragment>) returns (events: seq<Event>)
      modifies this
      ensures Output(View(), events) == FragmentsStep(old(View()), fs)
    {
      events := [];
      ghost var all := FragmentsStep(View(), fs);
      for k := 0 to |fs|
        invariant FragmentsStep(View(), fs[k..]).state == all.state
        invariant events + FragmentsStep(View(), fs[k..]).events == all.events
      {
        FragmentsHead(View(), fs, k);
        var more := EmitFragment(fs[k]);
        Associative(events, more, FragmentsStep(View(), fs[k + 1..]).events);
        events := events + more;
      }
    }

    method EmitFinish(chunk: Chunk, finish: Option<FinishReason>) returns (events: seq<Event>)
      modifies this
      ensures Output(View(), events) == FinishStep(old(View()), chunk, finish)
    {
      events := [];
      if finish.Some? {
        if contentBlockOpen {
          events := events + [BlockStop(contentBlockIndex)];
          contentBlockOpen := false;
        }
        var output := match chunk.usage case None => 0 case Some(u) => u.completionTokens;
        events := events + [MessageDelta(Some(MapStopReason(finish.value)), InputUsage(chunk.usage, output)),
                            MessageStop];
      }
    }

    /** `translateChunkToAnthropicEvents`: the events of one chunk, updating the state in place. */
    method Translate(chunk: Chunk) returns (events: seq<Event>)
      modifies this
      ensures Output(View(), events) == ChunkStep(old(View()), chunk)
    {
      events := [];
      if chunk.choices == [] {
        return;
      }
      var choice := chunk.choices[0];
      var start := EmitStart(chunk);
      var text := EmitText(choice.content);
      var tools := EmitFragments(choice.toolCalls);
      var finish := EmitFinish(chunk, choice.finish);
      events := start + text + tools + finish;
    }
  }
}
