/**
 The Anthropic event stream as a client sees it: the events, and a reader that
 accepts exactly the well-formed streams while rebuilding the message they carry.
 The reader knows nothing about how a stream was produced.
 */
module StreamEvents {
  import opened Common
  import opened JsonValues

  datatype StopReason = EndTurn | MaxTokens | ToolUse | Refusal

  datatype Hit = Hit(url: string, title: string, content: string, pageAge: string)

  /** What `content_block_start` announces. Text always starts empty. */
  datatype Header =
    | TextHeader
    | ToolHeader(id: string, name: string, input: Json)
    | SearchHeader(id: string, query: string)
    | SearchResultHeader(toolUseId: string, hits: seq<Hit>)

  datatype Delta = TextDelta(text: string) | JsonDelta(partial: string)

  datatype WireUsage = WireUsage(inputTokens: Option<int>, outputTokens: int, cacheRead: Option<int>, webSearches: Option<int>)

  datatype Event =
    | MessageStart(id: string, model: string, usage: WireUsage)
    | BlockStart(index: nat, header: Header)
    | BlockDelta(index: nat, delta: Delta)
    | BlockStop(index: nat)
    | MessageDelta(stopReason: Option<StopReason>, usage: WireUsage)
    | MessageStop
    | ErrorEvent(message: string)

  /** A block as rebuilt: a tool block collects its streamed JSON text. */
  datatype Block =
    | TextBlock(text: string)
    | ToolBlock(id: string, name: string, input: Json, json: string)
    | WholeBlock(header: Header)

  datatype Phase = Waiting | Body | Closing | Ended | Errored

  datatype Client = Client(
    phase: Phase,
    id: string,
    model: string,
    startUsage: WireUsage,
    blocks: seq<Block>,
    open: bool,
    stopReason: Option<StopReason>,
    finalUsage: WireUsage)

  const NoUsage := WireUsage(None, 0, None, None)
  const Fresh := Client(Waiting, "", "", NoUsage, [], false, None, NoUsage)

  function Opened(h: Header): Block {
    match h
    case TextHeader => TextBlock("")
    case ToolHeader(id, name, input) => ToolBlock(id, name, input, "")
    case _ => WholeBlock(h)
  }

  /** Whether the block numbered `i` is the one that is open. */
  predicate IsOpenBlock(c: Client, i: nat) {
    c.open && i + 1 == |c.blocks|
  }

  /**
   Read one event; None rejects the stream. A strict reader wants every delta in the
   open block; a lenient one also takes JSON for a tool block that was already closed.
   An error event may stand alone or follow a finished message.
   */
  function Read(strict: bool, c: Client, e: Event): Option<Client> {
    match e
    case MessageStart(id, model, usage) =>
      if c.phase == Waiting then Some(c.(phase := Body, id := id, model := model, startUsage := usage)) else None
    case BlockStart(i, h) =>
      if c.phase == Body && !c.open && i == |c.blocks|
      then Some(c.(blocks := c.blocks + [Opened(h)], open := true)) else None
    case BlockDelta(i, TextDelta(t)) =>
      if c.phase == Body && IsOpenBlock(c, i) && c.blocks[i].TextBlock?
      then Some(c.(blocks := c.blocks[i := TextBlock(c.blocks[i].text + t)])) else None
    case BlockDelta(i, JsonDelta(p)) =>
      if c.phase == Body && i < |c.blocks| && c.blocks[i].ToolBlock? && (strict ==> IsOpenBlock(c, i))
      then Some(c.(blocks := c.blocks[i := c.blocks[i].(json := c.blocks[i].json + p)])) else None
    case BlockStop(i) =>
      if c.phase == Body && IsOpenBlock(c, i) then Some(c.(open := false)) else None
    case MessageDelta(r, usage) =>
      if c.phase == Body && !c.open then Some(c.(phase := Closing, stopReason := r, finalUsage := usage)) else None
    case MessageStop =>
      if c.phase == Closing then Some(c.(phase := Ended)) else None
    case ErrorEvent(_) =>
      if c.phase == Waiting || c.phase == Ended then Some(c.(phase := Errored)) else None
  }

  function Replay(strict: bool, c: Client, events: seq<Event>): Option<Client>
    decreases |events|
  {
    if events == [] then Some(c)
    else
      match Read(strict, c, events[0])
      case None => None
      case Some(next) => Replay(strict, next, events[1..])
  }

  lemma {:induction false} ReplayConcat(strict: bool, c: Client, a: seq<Event>, b: seq<Event>)
    ensures Replay(strict, c, a + b)
            == (match Replay(strict, c, a) case None => None case Some(m) => Replay(strict, m, b))
    decreases |a|
  {
    if a == [] {
      assert a + b == b;
    } else {
      assert (a + b)[0] == a[0] && (a + b)[1..] == a[1..] + b;
      match Read(strict, c, a[0])
      case None =>
      case Some(next) => ReplayConcat(strict, next, a[1..], b);
    }
  }

  // ----- what acceptance means, said without the reader's state -----

  function StartedIndices(events: seq<Event>): seq<nat> {
    if events == [] then []
    else (if events[0].BlockStart? then [events[0].index] else []) + StartedIndices(events[1..])
  }

  function StoppedIndices(events: seq<Event>): seq<nat> {
    if events == [] then []
    else (if events[0].BlockStop? then [events[0].index] else []) + StoppedIndices(events[1..])
  }

  function UpFrom(lo: nat, hi: nat): seq<nat>
    requires lo <= hi
  {
    seq(hi - lo, i requires 0 <= i => lo + i)
  }

  function ClosedBlocks(c: Client): nat { if c.open && c.blocks != [] then |c.blocks| - 1 else |c.blocks| }

  lemma UpFromConcat(a: nat, b: nat, c: nat)
    requires a <= b <= c
    ensures UpFrom(a, b) + UpFrom(b, c) == UpFrom(a, c)
  {
  }

  /** What reading one event does to the numbers of started and stopped blocks. */
  lemma ReadNumbers(strict: bool, c: Client, e: Event)
    requires Read(strict, c, e).Some? && (c.open ==> c.blocks != [])
    ensures var d := Read(strict, c, e).value;
            && (d.open ==> d.blocks != [])
            && |c.blocks| <= |d.blocks| && ClosedBlocks(c) <= ClosedBlocks(d)
            && UpFrom(|c.blocks|, |d.blocks|) == (if e.BlockStart? then [e.index] else [])
            && UpFrom(ClosedBlocks(c), ClosedBlocks(d)) == (if e.BlockStop? then [e.index] else [])
  {
  }

  /**
   An accepted stream starts blocks 0,1,2,... in order and stops each of them once, in the
   same order; by the reader's rules each is stopped before the next one starts.
   */
  lemma {:induction false} AcceptedNumbers(strict: bool, c: Client, events: seq<Event>)
    requires Replay(strict, c, events).Some? && (c.open ==> c.blocks != [])
    ensures var d := Replay(strict, c, events).value;
            && (d.open ==> d.blocks != [])
            && |c.blocks| <= |d.blocks| && ClosedBlocks(c) <= ClosedBlocks(d)
            && StartedIndices(events) == UpFrom(|c.blocks|, |d.blocks|)
            && StoppedIndices(events) == UpFrom(ClosedBlocks(c), ClosedBlocks(d))
    decreases |events|
  {
    if events != [] {
      var next := Read(strict, c, events[0]).value;
      ReadNumbers(strict, c, events[0]);
      AcceptedNumbers(strict, next, events[1..]);
      var d := Replay(strict, c, events).value;
      UpFromConcat(|c.blocks|, |next.blocks|, |d.blocks|);
      UpFromConcat(ClosedBlocks(c), ClosedBlocks(next), ClosedBlocks(d));
    }
  }

  /** Whatever the strict reader accepts, the lenient one accepts with the same message. */
  lemma {:induction false} StrictImpliesLenient(c: Client, events: seq<Event>)
    requires Replay(true, c, events).Some?
    ensures Replay(false, c, events) == Replay(true, c, events)
    decreases |events|
  {
    if events != [] {
      StrictImpliesLenient(Read(true, c, events[0]).value, events[1..]);
    }
  }
}
