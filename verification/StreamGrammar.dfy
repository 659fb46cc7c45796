/**
 Which chunk streams are translated into well-formed event streams, exactly: a run is
 accepted by the client of StreamEvents if and only if the chunks are orderly, a
 condition on the chunks alone.
 */
module StreamGrammar {
  import opened Common
  import opened JsonValues
  import opened StreamEvents
  import opened StreamTranslation

  // ----- the translator's state against the message read so far -----

  /** The state describes the client's half-read message: the invariant of every run. */
  ghost predicate Mirrors(s: State, c: Client) {
    && c.phase == (if s.started then Body else Waiting)
    && c.open == s.open
    && |c.blocks| == s.index + (if s.open then 1 else 0)
    && (s.open ==> s.started && !c.blocks[s.index].WholeBlock?)
    && (forall i :: i in s.tools ==> Describes(s.tools[i], c.blocks))
    && (forall i, j :: i in s.tools && j in s.tools && s.tools[i].blockIndex == s.tools[j].blockIndex ==> i == j)
    && (s.open && c.blocks[s.index].ToolBlock? ==> ToolBlockOpen(s))
  }

  ghost predicate Describes(info: ToolInfo, blocks: seq<Block>) {
    && info.blockIndex < |blocks|
    && blocks[info.blockIndex].ToolBlock?
    && blocks[info.blockIndex].id == info.id
    && blocks[info.blockIndex].name == info.name
  }

  /** `isToolBlockOpen` is right: it holds exactly when the open block is a tool block. */
  lemma ToolBlockOpenIsExact(s: State, c: Client)
    requires Mirrors(s, c)
    ensures ToolBlockOpen(s) <==> c.open && c.blocks[|c.blocks| - 1].ToolBlock?
  {
    if ToolBlockOpen(s) {
      var i :| i in s.tools && s.tools[i].blockIndex == s.index;
      assert Describes(s.tools[i], c.blocks);
    }
  }

  // ----- what a caller can watch on the chunks alone -----

  /** The announced tool indices, the tool whose block was opened last with no text since, and the finish. */
  datatype Watch = Watch(known: set<int>, current: Option<int>, finished: bool)

  const Unseen := Watch({}, None, false)

  function WatchText(w: Watch, content: string): Watch {
    if content == "" then w else w.(current := None)
  }

  function WatchFragment(w: Watch, f: Fragment): Watch {
    if f.Announces() then w.(known := w.known + {f.index}, current := Some(f.index)) else w
  }

  function WatchFragments(w: Watch, fs: seq<Fragment>): Watch
    decreases |fs|
  {
    if fs == [] then w else WatchFragments(WatchFragment(w, fs[0]), fs[1..])
  }

  function WatchChunk(w: Watch, chunk: Chunk): Watch {
    if chunk.choices == [] then w
    else
      var choice := chunk.choices[0];
      var v := WatchFragments(WatchText(w, choice.content), choice.toolCalls);
      if choice.finish.Some? then v.(finished := true, current := None) else v
  }

  /** The arguments of a known tool belong to the tool that is being streamed. */
  predicate InTurn(w: Watch, f: Fragment) {
    f.arguments != "" && f.index in WatchFragment(w, f).known ==> WatchFragment(w, f).current == Some(f.index)
  }

  predicate AllInTurn(w: Watch, fs: seq<Fragment>)
    decreases |fs|
  {
    fs == [] || (InTurn(w, fs[0]) && AllInTurn(WatchFragment(w, fs[0]), fs[1..]))
  }

  predicate ChunkInTurn(w: Watch, chunk: Chunk) {
    chunk.choices == [] || AllInTurn(WatchText(w, chunk.choices[0].content), chunk.choices[0].toolCalls)
  }

  predicate Finishes(chunk: Chunk) { chunk.choices != [] && chunk.choices[0].finish.Some? }

  predicate SilentFragment(known: set<int>, f: Fragment) {
    !f.Announces() && (f.arguments == "" || f.index !in known)
  }

  /** A chunk that carries nothing a client could see. */
  predicate Silent(w: Watch, chunk: Chunk) {
    chunk.choices == [] ||
    (&& chunk.choices[0].content == ""
     && chunk.choices[0].finish.None?
     && forall f <- chunk.choices[0].toolCalls :: SilentFragment(w.known, f))
  }

  /** Nothing visible after a finish; for a strict reader, every argument fragment in turn. */
  predicate Orderly(strict: bool, w: Watch, chunks: seq<Chunk>)
    decreases |chunks|
  {
    chunks == [] ||
    (&& (if w.finished then Silent(w, chunks[0]) else strict ==> ChunkInTurn(w, chunks[0]))
     && Orderly(strict, if w.finished then w else WatchChunk(w, chunks[0]), chunks[1..]))
  }

  ghost predicate Follows(w: Watch, s: State) {
    && w.known == s.tools.Keys
    && forall i :: w.current == Some(i) <==> (s.open && i in s.tools && s.tools[i].blockIndex == s.index)
  }

  // ----- one step at a time -----

  /** The blocks after a piece of text: appended to an open text block, otherwise a new block. */
  function BlocksAfterText(blocks: seq<Block>, open: bool, content: string): seq<Block> {
    if content == "" then blocks
    else if open && blocks != [] && blocks[|blocks| - 1].TextBlock?
    then blocks[|blocks| - 1 := TextBlock(blocks[|blocks| - 1].text + content)]
    else blocks + [TextBlock(content)]
  }

  /** The blocks after a tool fragment: an announced block, then the arguments at the tool's block. */
  function BlocksAfterFragment(blocks: seq<Block>, tools: map<int, ToolInfo>, f: Fragment): seq<Block> {
    var announced := if f.Announces() then blocks + [ToolBlock(f.id, f.name, Obj([]), "")] else blocks;
    if f.arguments == "" then announced
    else if f.Announces() then announced[|blocks| := ToolBlock(f.id, f.name, Obj([]), f.arguments)]
    else if f.index in tools && tools[f.index].blockIndex < |blocks| && blocks[tools[f.index].blockIndex].ToolBlock?
    then
      var i := tools[f.index].blockIndex;
      announced[i := announced[i].(json := announced[i].json + f.arguments)]
    else announced
  }

  lemma ReplayOne(strict: bool, c: Client, e: Event)
    ensures Replay(strict, c, [e]) == Read(strict, c, e)
  {
  }

  lemma ReplayTwo(strict: bool, c: Client, e: Event, f: Event)
    ensures Replay(strict, c, [e, f])
            == (match Read(strict, c, e) case None => None case Some(d) => Read(strict, d, f))
  {
    ReplayConcat(strict, c, [e], [f]);
    assert [e] + [f] == [e, f];
  }

  lemma CloseReplays(strict: bool, s: State, c: Client)
    requires Mirrors(s, c)
    ensures Replay(strict, c, Close(s).events) == Some(c.(open := false))
    ensures Mirrors(Close(s).state, c.(open := false))
  {
    if s.open {
      ReplayOne(strict, c, BlockStop(s.index));
    } else {
      assert c == c.(open := false);
    }
  }

  lemma TextReplays(strict: bool, s: State, c: Client, w: Watch, content: string)
    requires Mirrors(s, c) && s.started && Follows(w, s)
    ensures var o := TextStep(s, content);
            var d := c.(blocks := BlocksAfterText(c.blocks, c.open, content), open := c.open || content != "");
            && Replay(strict, c, o.events) == Some(d)
            && Mirrors(o.state, d) && o.state.started && o.state.tools == s.tools
            && Follows(WatchText(w, content), o.state)
  {
    ToolBlockOpenIsExact(s, c);
    if content == "" {
    } else if s.open && !ToolBlockOpen(s) {
      ReplayOne(strict, c, BlockDelta(s.index, TextDelta(content)));
    } else {
      var closed := Close(s);
      CloseReplays(strict, s, c);
      var e, f := BlockStart(closed.state.index, TextHeader), BlockDelta(closed.state.index, TextDelta(content));
      ReplayConcat(strict, c, closed.events, [e, f]);
      ReplayTwo(strict, c.(open := false), e, f);
      assert "" + content == content;
      assert (c.blocks + [TextBlock("")])[|c.blocks| := TextBlock("" + content)] == c.blocks + [TextBlock(content)];
    }
  }

  lemma AnnounceReplays(strict: bool, s: State, c: Client, w: Watch, f: Fragment)
    requires Mirrors(s, c) && s.started && Follows(w, s)
    ensures var o := AnnounceStep(s, f);
            var d := if f.Announces()
                     then c.(blocks := c.blocks + [ToolBlock(f.id, f.name, Obj([]), "")], open := true) else c;
            && Replay(strict, c, o.events) == Some(d)
            && Mirrors(o.state, d) && o.state.started
            && Follows(WatchFragment(w, f), o.state)
            && (f.Announces() ==> f.index in o.state.tools && o.state.tools[f.index].blockIndex == |c.blocks|)
            && (!f.Announces() ==> o.state == s)
  {
    if f.Announces() {
      var closed := Close(s);
      CloseReplays(strict, s, c);
      var e := BlockStart(closed.state.index, ToolHeader(f.id, f.name, Obj([])));
      ReplayConcat(strict, c, closed.events, [e]);
      ReplayOne(strict, c.(open := false), e);
      var t := AnnounceStep(s, f).state;
      assert t.tools[f.index].blockIndex == t.index;
    }
  }

  lemma FragmentReplays(strict: bool, s: State, c: Client, w: Watch, f: Fragment)
    requires Mirrors(s, c) && s.started && Follows(w, s)
    ensures var o := FragmentStep(s, f);
            var d := c.(blocks := BlocksAfterFragment(c.blocks, s.tools, f), open := c.open || f.Announces());
            && (Replay(strict, c, o.events) == if strict && !InTurn(w, f) then None else Some(d))
            && Mirrors(o.state, d) && o.state.started
            && Follows(WatchFragment(w, f), o.state)
  {
    AnnounceReplays(strict, s, c, w, f);
    var a := AnnounceStep(s, f);
    var m := Replay(strict, c, a.events).value;
    var more := ArgumentEvents(a.state, f);
    ReplayConcat(strict, c, a.events, more);
    if more != [] {
      var i := a.state.tools[f.index].blockIndex;
      assert Describes(a.state.tools[f.index], m.blocks);
      ReplayOne(strict, m, more[0]);
      if f.Announces() {
        assert m.blocks[i].(json := "" + f.arguments) == ToolBlock(f.id, f.name, Obj([]), f.arguments);
      }
      JsonKeepsMirror(a.state, m, i, f.arguments);
    } else {
      assert a.events + more == a.events;
    }
  }

  /** Streaming JSON into a tool block disturbs nothing else. */
  lemma JsonKeepsMirror(s: State, c: Client, i: nat, json: string)
    requires Mirrors(s, c) && i < |c.blocks| && c.blocks[i].ToolBlock?
    ensures Mirrors(s, c.(blocks := c.blocks[i := c.blocks[i].(json := c.blocks[i].json + json)]))
  {
    var d := c.(blocks := c.blocks[i := c.blocks[i].(json := c.blocks[i].json + json)]);
    forall k | k in s.tools ensures Describes(s.tools[k], d.blocks) {
      assert Describes(s.tools[k], c.blocks);
    }
  }

  function BlocksAfterFragments(blocks: seq<Block>, s: State, fs: seq<Fragment>): seq<Block>
    decreases |fs|
  {
    if fs == [] then blocks
    else BlocksAfterFragments(BlocksAfterFragment(blocks, s.tools, fs[0]), FragmentStep(s, fs[0]).state, fs[1..])
  }

  predicate AnyAnnounces(fs: seq<Fragment>) {
    exists f <- fs :: f.Announces()
  }

  lemma {:induction false} FragmentsReplay(strict: bool, s: State, c: Client, w: Watch, fs: seq<Fragment>)
    requires Mirrors(s, c) && s.started && Follows(w, s)
    ensures var o := FragmentsStep(s, fs);
            var d := c.(blocks := BlocksAfterFragments(c.blocks, s, fs), open := c.open || AnyAnnounces(fs));
            && (Replay(strict, c, o.events) == if strict && !AllInTurn(w, fs) then None else Some(d))
            && Mirrors(o.state, d) && o.state.started
            && Follows(WatchFragments(w, fs), o.state)
    decreases |fs|
  {
    if fs == [] {
      assert c.(open := c.open || AnyAnnounces(fs)) == c;
    } else {
      FragmentReplays(strict, s, c, w, fs[0]);
      var head := FragmentStep(s, fs[0]);
      var d := c.(blocks := BlocksAfterFragment(c.blocks, s.tools, fs[0]), open := c.open || fs[0].Announces());
      FragmentsReplay(strict, head.state, d, WatchFragment(w, fs[0]), fs[1..]);
      ReplayConcat(strict, c, head.events, FragmentsStep(head.state, fs[1..]).events);
      assert AnyAnnounces(fs) <==> fs[0].Announces() || AnyAnnounces(fs[1..]);
    }
  }

  lemma FinishReplays(strict: bool, s: State, c: Client, chunk: Chunk, finish: FinishReason)
    requires Mirrors(s, c) && s.started
    ensures var o := FinishStep(s, chunk, Some(finish));
            && o.state == s.(open := false)
            && Replay(strict, c, o.events)
               == Some(c.(open := false, phase := Ended, stopReason := Some(MapStopReason(finish)),
                          finalUsage := FinalUsage(chunk)))
  {
    var o := FinishStep(s, chunk, Some(finish));
    var stop := if s.open then [BlockStop(s.index)] else [];
    var e := MessageDelta(Some(MapStopReason(finish)), FinalUsage(chunk));
    assert o.events == stop + [e, MessageStop];
    ReplayConcat(strict, c, stop, [e, MessageStop]);
    if s.open {
      ReplayOne(strict, c, BlockStop(s.index));
    } else {
      assert c == c.(open := false);
    }
    ReplayTwo(strict, c.(open := false), e, MessageStop);
  }

  function FinalUsage(chunk: Chunk): WireUsage {
    InputUsage(chunk.usage, match chunk.usage case None => 0 case Some(u) => u.completionTokens)
  }

  // ----- one chunk -----

  /** The client's message after a chunk, said on the chunk: what must be read, event stream aside. */
  function AfterChunk(c: Client, s: State, chunk: Chunk): Client {
    if chunk.choices == [] then c
    else
      var choice := chunk.choices[0];
      var a := if s.started then c
               else c.(phase := Body, id := chunk.id, model := chunk.model, startUsage := InputUsage(chunk.usage, 0));
      var b := a.(blocks := BlocksAfterText(a.blocks, a.open, choice.content), open := a.open || choice.content != "");
      var t := TextStep(s.(started := true), choice.content).state;
      var d := b.(blocks := BlocksAfterFragments(b.blocks, t, choice.toolCalls),
                  open := b.open || AnyAnnounces(choice.toolCalls));
      match choice.finish
      case None => d
      case Some(f) => d.(open := false, phase := Ended, stopReason := Some(MapStopReason(f)),
                         finalUsage := FinalUsage(chunk))
  }

  lemma ChunkReplays(strict: bool, s: State, c: Client, w: Watch, chunk: Chunk)
    requires Mirrors(s, c) && Follows(w, s)
    ensures var o := ChunkStep(s, chunk);
            && (Replay(strict, c, o.events) == if strict && !ChunkInTurn(w, chunk) then None else Some(AfterChunk(c, s, chunk)))
            && (!Finishes(chunk) ==> Mirrors(o.state, AfterChunk(c, s, chunk)) && Follows(WatchChunk(w, chunk), o.state))
            && (Finishes(chunk) ==> AfterChunk(c, s, chunk).phase == Ended && o.state.started && !o.state.open
                                    && WatchChunk(w, chunk).known == o.state.tools.Keys)
  {
    if chunk.choices != [] {
      var choice := chunk.choices[0];
      var a := StartStep(s, chunk);
      var c1 := if s.started then c
                else c.(phase := Body, id := chunk.id, model := chunk.model, startUsage := InputUsage(chunk.usage, 0));
      assert Replay(strict, c, a.events) == Some(c1) && Mirrors(a.state, c1) && Follows(w, a.state) by {
        if !s.started { ReplayOne(strict, c, a.events[0]); }
      }
      TextReplays(strict, a.state, c1, w, choice.content);
      var b := TextStep(a.state, choice.content);
      var c2 := Replay(strict, c1, b.events).value;
      var v := WatchText(w, choice.content);
      FragmentsReplay(strict, b.state, c2, v, choice.toolCalls);
      var t := FragmentsStep(b.state, choice.toolCalls);
      var d := FinishStep(t.state, chunk, choice.finish);
      ReplayConcat(strict, c, a.events, b.events);
      ReplayConcat(strict, c, a.events + b.events, t.events);
      ReplayConcat(strict, c, a.events + b.events + t.events, d.events);
      var c3 := c2.(blocks := BlocksAfterFragments(c2.blocks, b.state, choice.toolCalls),
                    open := c2.open || AnyAnnounces(choice.toolCalls));
      if choice.finish.Some? {
        FinishReplays(strict, t.state, c3, chunk, choice.finish.value);
      }
    }
  }

  lemma {:induction false} SilentFragments(s: State, fs: seq<Fragment>)
    ensures FragmentsStep(s, fs).events == [] <==> forall f <- fs :: SilentFragment(s.tools.Keys, f)
    ensures FragmentsStep(s, fs).events == [] ==> FragmentsStep(s, fs).state == s
    ensures forall e <- FragmentsStep(s, fs).events :: !e.ErrorEvent?
    decreases |fs|
  {
    if fs != [] {
      var head := FragmentStep(s, fs[0]);
      SilentFragments(head.state, fs[1..]);
      assert FragmentsStep(s, fs).events == head.events + FragmentsStep(head.state, fs[1..]).events;
      if SilentFragment(s.tools.Keys, fs[0]) {
        assert head.state == s && head.events == [];
        assert forall f :: f in fs <==> f == fs[0] || f in fs[1..];
      } else {
        assert head.events != [];
        assert fs[0] in fs;
      }
    }
  }

  /** The translator never writes an error event. */
  predicate NoErrors(events: seq<Event>) {
    forall e <- events :: !e.ErrorEvent?
  }

  lemma NoErrorsConcat(a: seq<Event>, b: seq<Event>)
    requires NoErrors(a) && NoErrors(b)
    ensures NoErrors(a + b)
  {
  }

  lemma StepsHaveNoErrors(s: State, chunk: Chunk, content: string, finish: Option<FinishReason>)
    ensures NoErrors(StartStep(s, chunk).events) && NoErrors(TextStep(s, content).events)
    ensures NoErrors(FinishStep(s, chunk, finish).events)
  {
  }

  lemma NoErrorEvents(s: State, chunk: Chunk)
    ensures forall e <- ChunkStep(s, chunk).events :: !e.ErrorEvent?
  {
    if chunk.choices != [] {
      var choice := chunk.choices[0];
      var a := StartStep(s, chunk);
      var b := TextStep(a.state, choice.content);
      var c := FragmentsStep(b.state, choice.toolCalls);
      var d := FinishStep(c.state, chunk, choice.finish);
      StepsHaveNoErrors(s, chunk, choice.content, choice.finish);
      StepsHaveNoErrors(a.state, chunk, choice.content, choice.finish);
      StepsHaveNoErrors(c.state, chunk, choice.content, choice.finish);
      SilentFragments(b.state, choice.toolCalls);
      NoErrorsConcat(a.events, b.events);
      NoErrorsConcat(a.events + b.events, c.events);
      NoErrorsConcat(a.events + b.events + c.events, d.events);
    }
  }

  lemma EndedReadsNothing(strict: bool, c: Client, events: seq<Event>)
    requires c.phase == Ended && events != [] && forall e <- events :: !e.ErrorEvent?
    ensures Replay(strict, c, events) == None
  {
    assert events[0] in events;
  }

  /** In a started, closed message, exactly the silent chunks write nothing. */
  lemma SilentChunk(s: State, w: Watch, chunk: Chunk)
    requires s.started && !s.open && w.known == s.tools.Keys
    ensures Silent(w, chunk) ==> ChunkStep(s, chunk) == Output(s, [])
    ensures !Silent(w, chunk) ==> ChunkStep(s, chunk).events != []
  {
    if chunk.choices != [] {
      var choice := chunk.choices[0];
      if choice.content == "" {
        SilentFragments(s, choice.toolCalls);
        assert StartStep(s, chunk) == Output(s, []) && TextStep(s, choice.content) == Output(s, []);
      } else {
        assert TextStep(s, choice.content).events != [];
      }
    }
  }

  /** After the finish, a chunk is harmless exactly when it is silent. */
  lemma FinishedChunk(strict: bool, s: State, c: Client, w: Watch, chunk: Chunk)
    requires s.started && !s.open && c.phase == Ended && w.known == s.tools.Keys
    ensures Silent(w, chunk) ==> ChunkStep(s, chunk) == Output(s, [])
    ensures !Silent(w, chunk) ==> Replay(strict, c, ChunkStep(s, chunk).events) == None
  {
    SilentChunk(s, w, chunk);
    if !Silent(w, chunk) {
      NoErrorEvents(s, chunk);
      EndedReadsNothing(strict, c, ChunkStep(s, chunk).events);
    }
  }

  // ----- whole runs -----

  /** The message a client has read after a run, said on the chunks. */
  function AfterRun(c: Client, s: State, w: Watch, chunks: seq<Chunk>): Client
    decreases |chunks|
  {
    if chunks == [] || w.finished then c
    else AfterRun(AfterChunk(c, s, chunks[0]), ChunkStep(s, chunks[0]).state, WatchChunk(w, chunks[0]), chunks[1..])
  }

  ghost predicate InStep(s: State, c: Client, w: Watch) {
    if w.finished then s.started && !s.open && c.phase == Ended && w.known == s.tools.Keys
    else Mirrors(s, c) && Follows(w, s)
  }

  lemma {:induction false} RunReplays(strict: bool, s: State, c: Client, w: Watch, chunks: seq<Chunk>)
    requires InStep(s, c, w)
    ensures Replay(strict, c, Run(s, chunks).events)
            == if Orderly(strict, w, chunks) then Some(AfterRun(c, s, w, chunks)) else None
    decreases |chunks|
  {
    if chunks != [] {
      var head := ChunkStep(s, chunks[0]);
      ReplayConcat(strict, c, head.events, Run(head.state, chunks[1..]).events);
      if w.finished {
        FinishedChunk(strict, s, c, w, chunks[0]);
        if Silent(w, chunks[0]) {
          RunReplays(strict, s, c, w, chunks[1..]);
        }
      } else {
        ChunkReplays(strict, s, c, w, chunks[0]);
        WatchFinishes(w, chunks[0]);
        RunReplays(strict, head.state, AfterChunk(c, s, chunks[0]), WatchChunk(w, chunks[0]), chunks[1..]);
      }
    }
  }

  lemma {:induction false} WatchFragmentsFinished(w: Watch, fs: seq<Fragment>)
    ensures WatchFragments(w, fs).finished == w.finished
    decreases |fs|
  {
    if fs != [] { WatchFragmentsFinished(WatchFragment(w, fs[0]), fs[1..]); }
  }

  lemma WatchFinishes(w: Watch, chunk: Chunk)
    ensures WatchChunk(w, chunk).finished == (w.finished || Finishes(chunk))
  {
    if chunk.choices != [] {
      WatchFragmentsFinished(WatchText(w, chunk.choices[0].content), chunk.choices[0].toolCalls);
    }
  }

  lemma {:induction false} AfterRunPhase(s: State, c: Client, w: Watch, chunks: seq<Chunk>)
    requires InStep(s, c, w) && !w.finished
    ensures AfterRun(c, s, w, chunks).phase
            == if exists ch <- chunks :: Finishes(ch) then Ended
               else if s.started || exists ch <- chunks :: ch.choices != [] then Body else Waiting
    decreases |chunks|
  {
    if chunks != [] {
      ChunkReplays(false, s, c, w, chunks[0]);
      WatchFinishes(w, chunks[0]);
      var d, t, v := AfterChunk(c, s, chunks[0]), ChunkStep(s, chunks[0]).state, WatchChunk(w, chunks[0]);
      assert chunks == [chunks[0]] + chunks[1..];
      if !v.finished {
        AfterRunPhase(t, d, v, chunks[1..]);
      }
    }
  }

  /**
   The main theorem on the streaming translator. From a fresh state, the events of any
   chunk sequence are accepted if and only if the chunks are orderly; then exactly one
   message was started (if any chunk had a choice), blocks are numbered 0,1,2,... and
   each is stopped before the next starts, and the message is ended if and only if some
   chunk finished it.
   */
  lemma StreamIsWellFormed(strict: bool, chunks: seq<Chunk>)
    ensures var events := Run(Initial, chunks).events;
            var read := Replay(strict, Fresh, events);
            && (read.Some? <==> Orderly(strict, Unseen, chunks))
            && (read.Some? ==>
                  && read.value == AfterRun(Fresh, Initial, Unseen, chunks)
                  && read.value.phase == (if exists ch <- chunks :: Finishes(ch) then Ended
                                          else if exists ch <- chunks :: ch.choices != [] then Body else Waiting)
                  && (read.value.phase == Ended ==> !read.value.open)
                  && StartedIndices(events) == UpFrom(0, |read.value.blocks|)
                  && StoppedIndices(events) == UpFrom(0, ClosedBlocks(read.value)))
  {
    RunReplays(strict, Initial, Fresh, Unseen, chunks);
    AfterRunPhase(Initial, Fresh, Unseen, chunks);
    if Orderly(strict, Unseen, chunks) {
      AcceptedNumbers(strict, Fresh, Run(Initial, chunks).events);
      EndedIsClosed(Initial, Fresh, Unseen, chunks);
    }
  }

  lemma {:induction false} EndedIsClosed(s: State, c: Client, w: Watch, chunks: seq<Chunk>)
    requires InStep(s, c, w) && (w.finished ==> !c.open)
    ensures AfterRun(c, s, w, chunks).phase == Ended ==> !AfterRun(c, s, w, chunks).open
    decreases |chunks|
  {
    if chunks != [] && !w.finished {
      ChunkReplays(false, s, c, w, chunks[0]);
      WatchFinishes(w, chunks[0]);
      EndedIsClosed(ChunkStep(s, chunks[0]).state, AfterChunk(c, s, chunks[0]), WatchChunk(w, chunks[0]), chunks[1..]);
    }
  }

  /** A lenient reader accepts every stream with no choice-bearing chunk after a finish. */
  lemma {:induction false} QuietTailIsOrderly(w: Watch, chunks: seq<Chunk>)
    requires w.finished ==> forall ch <- chunks :: ch.choices == []
    requires forall i, j :: 0 <= i < j < |chunks| && Finishes(chunks[i]) ==> chunks[j].choices == []
    ensures Orderly(false, w, chunks)
    decreases |chunks|
  {
    if chunks != [] {
      WatchFinishes(w, chunks[0]);
      var v := if w.finished then w else WatchChunk(w, chunks[0]);
      forall ch | ch in chunks[1..] && v.finished ensures ch.choices == [] {
        var j :| 0 <= j < |chunks[1..]| && chunks[1..][j] == ch;
        assert chunks[j + 1] == ch;
      }
      QuietTailIsOrderly(v, chunks[1..]);
    }
  }

  // ----- a stream that only the lenient reader takes -----

  /** Two tools announced, then arguments for the first. */
  const LateArguments := [Fragment(0, "a", "f", ""), Fragment(1, "b", "g", ""), Fragment(0, "", "", "{}")]

  /** Arguments for an older tool go to a block that is closed. */
  lemma LateArgumentsHitAClosedBlock(id: string, model: string)
    ensures var events := Run(Initial, [Chunk(id, model, None, [Choice("", LateArguments, None)])]).events;
            Replay(true, Fresh, events).None? && Replay(false, Fresh, events).Some?
  {
    var chunk := Chunk(id, model, None, [Choice("", LateArguments, None)]);
    assert [chunk][1..] == [];
    var fs := LateArguments;
    var v := WatchFragment(Unseen, fs[0]);
    var w := WatchFragment(v, fs[1]);
    assert fs[1..][1..] == [fs[2]] && fs[1..][0] == fs[1];
    assert !InTurn(w, fs[2]);
    assert !AllInTurn(w, [fs[2]]) && !AllInTurn(v, fs[1..]) && !AllInTurn(Unseen, fs);
    assert !Orderly(true, Unseen, [chunk]) && Orderly(false, Unseen, [chunk]);
    StreamIsWellFormed(true, [chunk]);
    StreamIsWellFormed(false, [chunk]);
  }

  /** Text in a chunk after the finish chunk is taken by no reader. */
  lemma TextAfterFinishIsRejected(id: string, model: string, text: string)
    requires text != ""
    ensures var finish := Chunk(id, model, None, [Choice("", [], Some(Stop))]);
            var late := Chunk(id, model, None, [Choice(text, [], None)]);
            && Replay(true, Fresh, Run(Initial, [finish]).events).Some?
            && Replay(false, Fresh, Run(Initial, [finish, late]).events).None?
  {
    var finish := Chunk(id, model, None, [Choice("", [], Some(Stop))]);
    var late := Chunk(id, model, None, [Choice(text, [], None)]);
    var w := WatchChunk(Unseen, finish);
    assert [finish][1..] == [] && [finish, late][1..] == [late];
    assert Orderly(true, Unseen, [finish]);
    assert w.finished && !Silent(w, late) && !Orderly(false, w, [late]);
    StreamIsWellFormed(true, [finish]);
    StreamIsWellFormed(false, [finish, late]);
  }

  // ----- how a message starts and ends for the client -----

  lemma {:induction false} HeadStays(s: State, c: Client, w: Watch, chunks: seq<Chunk>)
    requires s.started
    ensures var d := AfterRun(c, s, w, chunks); d.id == c.id && d.model == c.model && d.startUsage == c.startUsage
    decreases |chunks|
  {
    if chunks != [] && !w.finished {
      ChunkStarts(s, chunks[0]);
      HeadStays(ChunkStep(s, chunks[0]).state, AfterChunk(c, s, chunks[0]), WatchChunk(w, chunks[0]), chunks[1..]);
    }
  }

  lemma {:induction false} FragmentsKeepStarted(s: State, fs: seq<Fragment>)
    ensures FragmentsStep(s, fs).state.started == s.started
    decreases |fs|
  {
    if fs != [] { FragmentsKeepStarted(FragmentStep(s, fs[0]).state, fs[1..]); }
  }

  lemma ChunkStarts(s: State, chunk: Chunk)
    ensures ChunkStep(s, chunk).state.started == (s.started || chunk.choices != [])
  {
    if chunk.choices != [] {
      FragmentsKeepStarted(TextStep(StartStep(s, chunk).state, chunk.choices[0].content).state, chunk.choices[0].toolCalls);
    }
  }

  lemma {:induction false} RunStartsAs(s: State, c: Client, w: Watch, chunks: seq<Chunk>, i: nat)
    requires !s.started && !w.finished
    requires i < |chunks| && chunks[i].choices != [] && forall j :: 0 <= j < i ==> chunks[j].choices == []
    ensures var d := AfterRun(c, s, w, chunks);
            d.id == chunks[i].id && d.model == chunks[i].model && d.startUsage == InputUsage(chunks[i].usage, 0)
    decreases i
  {
    ChunkStarts(s, chunks[0]);
    var t, d, v := ChunkStep(s, chunks[0]).state, AfterChunk(c, s, chunks[0]), WatchChunk(w, chunks[0]);
    if i == 0 {
      HeadStays(t, d, v, chunks[1..]);
    } else {
      RunStartsAs(t, d, v, chunks[1..], i - 1);
    }
  }

  lemma {:induction false} RunEndsAs(s: State, c: Client, w: Watch, chunks: seq<Chunk>, i: nat)
    requires !w.finished
    requires i < |chunks| && Finishes(chunks[i]) && forall j :: 0 <= j < i ==> !Finishes(chunks[j])
    ensures var d := AfterRun(c, s, w, chunks);
            d.stopReason == Some(MapStopReason(chunks[i].choices[0].finish.value)) && d.finalUsage == FinalUsage(chunks[i])
    decreases i
  {
    WatchFinishes(w, chunks[0]);
    if i > 0 {
      RunEndsAs(ChunkStep(s, chunks[0]).state, AfterChunk(c, s, chunks[0]), WatchChunk(w, chunks[0]), chunks[1..], i - 1);
    }
  }

  /** The wire usage for an upstream usage: prompt tokens without the cached ones, which stand beside; zeros without one. */
  predicate Reports(wire: WireUsage, usage: Option<Usage>, output: int) {
    && wire.outputTokens == output && wire.webSearches == None
    && (usage.None? ==> wire.inputTokens == Some(0) && wire.cacheRead == None)
    && (usage.Some? ==>
          && wire.cacheRead == usage.value.cachedTokens
          && wire.inputTokens == Some(usage.value.promptTokens - (if usage.value.cachedTokens.Some? then usage.value.cachedTokens.value else 0)))
  }

  lemma StartReports(usage: Option<Usage>)
    ensures Reports(InputUsage(usage, 0), usage, 0)
  {
  }

  lemma ReadIs(strict: bool, chunks: seq<Chunk>)
    requires Orderly(strict, Unseen, chunks)
    ensures Replay(strict, Fresh, Run(Initial, chunks).events) == Some(AfterRun(Fresh, Initial, Unseen, chunks))
    ensures (exists ch <- chunks :: Finishes(ch)) ==> AfterRun(Fresh, Initial, Unseen, chunks).phase == Ended
  {
    StreamIsWellFormed(strict, chunks);
  }

  /** The client's message starts with the id, model and usage of the first chunk that has a choice. */
  lemma MessageStartsAs(strict: bool, chunks: seq<Chunk>, i: nat)
    requires Orderly(strict, Unseen, chunks)
    requires i < |chunks| && chunks[i].choices != [] && forall j :: 0 <= j < i ==> chunks[j].choices == []
    ensures var read := Replay(strict, Fresh, Run(Initial, chunks).events);
            && read.Some? && read.value.id == chunks[i].id && read.value.model == chunks[i].model
            && Reports(read.value.startUsage, chunks[i].usage, 0)
  {
    ReadIs(strict, chunks);
    RunStartsAs(Initial, Fresh, Unseen, chunks, i);
    StartReports(chunks[i].usage);
  }

  lemma ReasonsExactly()
    ensures MapStopReason(Stop) == EndTurn && MapStopReason(Length) == MaxTokens
    ensures MapStopReason(ToolCalls) == ToolUse && MapStopReason(ContentFilter) == Refusal
  {
  }

  lemma FinalReports(chunk: Chunk)
    ensures Reports(FinalUsage(chunk), chunk.usage, if chunk.usage.Some? then chunk.usage.value.completionTokens else 0)
  {
  }

  /** It ends with the stop reason and usage of the first chunk that finishes it. */
  lemma MessageEndsAs(strict: bool, chunks: seq<Chunk>, i: nat)
    requires Orderly(strict, Unseen, chunks)
    requires i < |chunks| && Finishes(chunks[i]) && forall j :: 0 <= j < i ==> !Finishes(chunks[j])
    ensures var read := Replay(strict, Fresh, Run(Initial, chunks).events);
            var finish := chunks[i].choices[0].finish.value;
            && read.Some? && read.value.phase == Ended
            && (finish == Stop ==> read.value.stopReason == Some(EndTurn))
            && (finish == Length ==> read.value.stopReason == Some(MaxTokens))
            && (finish == ToolCalls ==> read.value.stopReason == Some(ToolUse))
            && (finish == ContentFilter ==> read.value.stopReason == Some(Refusal))
            && Reports(read.value.finalUsage, chunks[i].usage,
                       if chunks[i].usage.Some? then chunks[i].usage.value.completionTokens else 0)
  {
    ReadIs(strict, chunks);
    RunEndsAs(Initial, Fresh, Unseen, chunks, i);
    ReasonsExactly();
    FinalReports(chunks[i]);
    assert chunks[i] in chunks;
  }
}
