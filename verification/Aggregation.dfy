/**
 The aggregating reader of a chunk stream (`aggregateStream`,
 routes/messages/web-search-handler.ts) and the proof that streaming agrees with it:
 a client replaying the translated events rebuilds the same text and the same tool calls.
 */
module Aggregation {
  import opened Common
  import opened JsonValues
  import opened StreamEvents
  import opened StreamTranslation
  import opened StreamGrammar

  /** One server-sent event of the upstream stream. */
  datatype RawEvent = Done | NoData | Unparseable | Data(chunk: Chunk)

  datatype Call = Call(id: string, name: string, arguments: string)

  /** A JavaScript Map from tool index to the call collected so far; `order` is insertion order. */
  datatype CallMap = CallMap(order: seq<int>, calls: map<int, Call>) {
    ghost predicate Valid() {
      && Unique(order)
      && (forall k :: 0 <= k < |order| ==> order[k] in calls)
      && (forall i :: i in calls ==> i in order)
    }

    function Values(): seq<Call>
      requires Valid()
    {
      seq(|order|, k requires 0 <= k < |order| => calls[order[k]])
    }
  }

  datatype Gathered = Gathered(id: string, model: string, content: string, finish: FinishReason,
                               usage: Option<Usage>, tools: CallMap)

  const Nothing := Gathered("", "", "", Stop, None, CallMap([], map[]))

  function GatherFragment(t: CallMap, f: Fragment): (r: CallMap)
    requires t.Valid()
    ensures r.Valid()
  {
    var cur := if f.index in t.calls then t.calls[f.index] else Call("", "", "");
    var next := Call(if f.id != "" then f.id else cur.id,
                     if f.name != "" then f.name else cur.name,
                     cur.arguments + f.arguments);
    CallMap(if f.index in t.calls then t.order else t.order + [f.index], t.calls[f.index := next])
  }

  function GatherFragments(t: CallMap, fs: seq<Fragment>): (r: CallMap)
    requires t.Valid()
    ensures r.Valid()
    decreases |fs|
  {
    if fs == [] then t else GatherFragments(GatherFragment(t, fs[0]), fs[1..])
  }

  function GatherChunk(g: Gathered, chunk: Chunk): (r: Gathered)
    requires g.tools.Valid()
    ensures r.tools.Valid()
  {
    var h := g.(id := if chunk.id != "" then chunk.id else g.id,
                model := if chunk.model != "" then chunk.model else g.model,
                usage := if chunk.usage.Some? then chunk.usage else g.usage);
    if chunk.choices == [] then h
    else
      var choice := chunk.choices[0];
      h.(content := h.content + choice.content,
         finish := if choice.finish.Some? then choice.finish.value else h.finish,
         tools := GatherFragments(h.tools, choice.toolCalls))
  }

  function Gather(g: Gathered, chunks: seq<Chunk>): (r: Gathered)
    requires g.tools.Valid()
    ensures r.tools.Valid()
    decreases |chunks|
  {
    if chunks == [] then g else Gather(GatherChunk(g, chunks[0]), chunks[1..])
  }

  /** The chunks the aggregator reads: it skips end markers and unreadable events. */
  function Received(events: seq<RawEvent>): seq<Chunk> {
    if events == [] then []
    else (if events[0].Data? then [events[0].chunk] else []) + Received(events[1..])
  }

  datatype Reply = Reply(id: string, model: string, content: Option<string>, toolCalls: seq<Call>,
                         finish: FinishReason, usage: Option<Usage>)

  function ReplyOf(g: Gathered): Reply
    requires g.tools.Valid()
  {
    Reply(g.id, g.model, if g.content == "" then None else Some(g.content), g.tools.Values(), g.finish, g.usage)
  }

  method AggregateStream(events: seq<RawEvent>) returns (reply: Reply)
    ensures reply == ReplyOf(Gather(Nothing, Received(events)))
  {
    var id, model, content, finish := "", "", "", Stop;
    var usage: Option<Usage> := None;
    var tools := CallMap([], map[]);
    for k := 0 to |events|
      invariant tools.Valid()
      invariant Gather(Gathered(id, model, content, finish, usage, tools), Received(events[k..]))
                == Gather(Nothing, Received(events))
    {
      ghost var before := Gathered(id, model, content, finish, usage, tools);
      assert events[k..][0] == events[k] && events[k..][1..] == events[k + 1..];
      if !events[k].Data? {
        assert Received(events[k..]) == Received(events[k + 1..]);
        continue;
      }
      var chunk := events[k].chunk;
      assert Received(events[k..])[0] == chunk && Received(events[k..])[1..] == Received(events[k + 1..]);
      if chunk.id != "" { id := chunk.id; }
      if chunk.model != "" { model := chunk.model; }
      if chunk.usage.Some? { usage := chunk.usage; }
      if chunk.choices == [] { continue; }
      var choice := chunk.choices[0];
      content := content + choice.content;
      if choice.finish.Some? { finish := choice.finish.value; }
      tools := CollectFragments(tools, choice.toolCalls);
      assert Gathered(id, model, content, finish, usage, tools) == GatherChunk(before, chunk);
    }
    var g := Gathered(id, model, content, finish, usage, tools);
    assert events[|events|..] == [];
    var calls := [];
    for k := 0 to |tools.order|
      invariant calls == tools.Values()[..k]
    {
      calls := calls + [tools.calls[tools.order[k]]];
    }
    reply := Reply(id, model, if content == "" then None else Some(content), calls, finish, usage);
    assert reply == ReplyOf(g);
  }

  method CollectFragments(tools: CallMap, fs: seq<Fragment>) returns (r: CallMap)
    requires tools.Valid()
    ensures r.Valid() && r == GatherFragments(tools, fs)
  {
    r := tools;
    for k := 0 to |fs|
      invariant r.Valid()
      invariant GatherFragments(r, fs[k..]) == GatherFragments(tools, fs)
    {
      var f := fs[k];
      var cur := if f.index in r.calls then r.calls[f.index] else Call("", "", "");
      if f.id != "" { cur := cur.(id := f.id); }
      if f.name != "" { cur := cur.(name := f.name); }
      if f.arguments != "" { cur := cur.(arguments := cur.arguments + f.arguments); }
      ghost var before := r;
      r := CallMap(if f.index in r.calls then r.order else r.order + [f.index], r.calls[f.index := cur]);
      assert f.arguments == "" ==> cur.arguments + f.arguments == cur.arguments;
      assert r == GatherFragment(before, f);
      assert fs[k..][0] == f && fs[k..][1..] == fs[k + 1..];
    }
    assert fs[|fs|..] == [];
  }

  // ----- what a client has read -----

  function TextOf(blocks: seq<Block>): string {
    if blocks == [] then ""
    else (if blocks[0].TextBlock? then blocks[0].text else "") + TextOf(blocks[1..])
  }

  function CallsOf(blocks: seq<Block>): seq<Call> {
    if blocks == [] then []
    else (if blocks[0].ToolBlock? then [Call(blocks[0].id, blocks[0].name, blocks[0].json)] else []) + CallsOf(blocks[1..])
  }

  lemma {:induction false} TextOfConcat(a: seq<Block>, b: seq<Block>)
    ensures TextOf(a + b) == TextOf(a) + TextOf(b)
  {
    if a == [] {
      assert a + b == b;
    } else {
      TextOfConcat(a[1..], b);
      assert (a + b)[1..] == a[1..] + b;
    }
  }

  lemma {:induction false} CallsOfConcat(a: seq<Block>, b: seq<Block>)
    ensures CallsOf(a + b) == CallsOf(a) + CallsOf(b)
  {
    if a == [] {
      assert a + b == b;
    } else {
      CallsOfConcat(a[1..], b);
      assert (a + b)[1..] == a[1..] + b;
    }
  }

  /** Adding JSON to the tool block at `i` changes the call of that rank and nothing else. */
  lemma CallsOfUpdate(blocks: seq<Block>, i: nat, json: string)
    requires i < |blocks| && blocks[i].ToolBlock?
    ensures var rank := |CallsOf(blocks[..i])|;
            var after := blocks[i := blocks[i].(json := blocks[i].json + json)];
            && rank < |CallsOf(blocks)|
            && CallsOf(blocks)[rank] == Call(blocks[i].id, blocks[i].name, blocks[i].json)
            && CallsOf(after) == CallsOf(blocks)[rank := CallsOf(blocks)[rank].(arguments := blocks[i].json + json)]
            && TextOf(after) == TextOf(blocks)
  {
    var b := blocks[i].(json := blocks[i].json + json);
    var after := blocks[i := b];
    assert blocks == blocks[..i] + [blocks[i]] + blocks[i + 1..];
    assert after == blocks[..i] + [b] + blocks[i + 1..];
    CallsOfConcat(blocks[..i] + [blocks[i]], blocks[i + 1..]);
    CallsOfConcat(blocks[..i], [blocks[i]]);
    CallsOfConcat(blocks[..i] + [b], blocks[i + 1..]);
    CallsOfConcat(blocks[..i], [b]);
    TextOfConcat(blocks[..i] + [blocks[i]], blocks[i + 1..]);
    TextOfConcat(blocks[..i], [blocks[i]]);
    TextOfConcat(blocks[..i] + [b], blocks[i + 1..]);
    TextOfConcat(blocks[..i], [b]);
  }

  // ----- the condition on the stream -----

  datatype Name = Name(id: string, name: string)

  /** The first fragment of a tool index carries its id and name; later ones do not announce it again or rename it. */
  predicate AnnouncedOnce(seen: map<int, Name>, fs: seq<Fragment>)
    decreases |fs|
  {
    fs == [] ||
    (&& AnnouncedFragment(seen, fs[0])
     && AnnouncedOnce(See(seen, fs[0]), fs[1..]))
  }

  predicate AnnouncedFragment(seen: map<int, Name>, f: Fragment) {
    if f.index in seen then
      && !f.Announces()
      && (f.id == "" || f.id == seen[f.index].id)
      && (f.name == "" || f.name == seen[f.index].name)
    else f.Announces()
  }

  function See(seen: map<int, Name>, f: Fragment): map<int, Name> {
    if f.index in seen then seen else seen[f.index := Name(f.id, f.name)]
  }

  function SeeAll(seen: map<int, Name>, fs: seq<Fragment>): map<int, Name>
    decreases |fs|
  {
    if fs == [] then seen else SeeAll(See(seen, fs[0]), fs[1..])
  }

  function FragmentsOf(chunk: Chunk): seq<Fragment> {
    if chunk.choices == [] then [] else chunk.choices[0].toolCalls
  }

  function AllFragments(chunks: seq<Chunk>): seq<Fragment> {
    if chunks == [] then [] else FragmentsOf(chunks[0]) + AllFragments(chunks[1..])
  }

  lemma {:induction false} AnnouncedSplit(seen: map<int, Name>, a: seq<Fragment>, b: seq<Fragment>)
    ensures AnnouncedOnce(seen, a + b) <==> AnnouncedOnce(seen, a) && AnnouncedOnce(SeeAll(seen, a), b)
    decreases |a|
  {
    if a == [] {
      assert a + b == b;
    } else {
      AnnouncedSplit(See(seen, a[0]), a[1..], b);
      assert (a + b)[0] == a[0] && (a + b)[1..] == a[1..] + b;
    }
  }

  // ----- the agreement between translator, client and aggregator -----

  ghost predicate Agrees(infos: map<int, ToolInfo>, blocks: seq<Block>, content: string, tools: CallMap, seen: map<int, Name>) {
    && tools.Valid()
    && TextOf(blocks) == content
    && CallsOf(blocks) == tools.Values()
    && infos.Keys == tools.calls.Keys == seen.Keys
    && (forall i :: i in infos ==> Describes(infos[i], blocks))
    && (forall i :: i in seen ==> seen[i] == Name(infos[i].id, infos[i].name))
    && forall k :: 0 <= k < |tools.order| ==>
         && tools.order[k] in infos
         && infos[tools.order[k]].blockIndex <= |blocks|
         && |CallsOf(blocks[..infos[tools.order[k]].blockIndex])| == k
  }

  lemma AppendKeepsAgreement(s: State, blocks: seq<Block>, b: Block, content: string, tools: CallMap, seen: map<int, Name>)
    requires Agrees(s.tools, blocks, content, tools, seen) && b.TextBlock?
    ensures Agrees(s.tools, blocks + [b], content + b.text, tools, seen)
  {
    TextOfConcat(blocks, [b]);
    CallsOfConcat(blocks, [b]);
    assert TextOf([b]) == b.text + "" == b.text;
    forall i | i in s.tools ensures Describes(s.tools[i], blocks + [b]) {
      assert Describes(s.tools[i], blocks);
    }
    forall k | 0 <= k < |tools.order|
      ensures |CallsOf((blocks + [b])[..s.tools[tools.order[k]].blockIndex])| == k
    {
      assert Describes(s.tools[tools.order[k]], blocks);
      assert (blocks + [b])[..s.tools[tools.order[k]].blockIndex] == blocks[..s.tools[tools.order[k]].blockIndex];
    }
  }

  lemma TextAgrees(s: State, blocks: seq<Block>, open: bool, text: string, content: string, tools: CallMap, seen: map<int, Name>)
    requires Agrees(s.tools, blocks, content, tools, seen)
    ensures Agrees(s.tools, BlocksAfterText(blocks, open, text), content + text, tools, seen)
  {
    var last := |blocks| - 1;
    if text == "" {
      assert content + text == content;
    } else if open && blocks != [] && blocks[last].TextBlock? {
      var init := blocks[..last];
      var old', new' := blocks[last], TextBlock(blocks[last].text + text);
      assert blocks == init + [old'] && BlocksAfterText(blocks, open, text) == init + [new'];
      TextOfConcat(init, [old']);
      TextOfConcat(init, [new']);
      CallsOfConcat(init, [old']);
      CallsOfConcat(init, [new']);
      assert TextOf([old']) == old'.text && TextOf([new']) == old'.text + text;
      assert TextOf(init) + (old'.text + text) == TextOf(init) + old'.text + text;
      forall i | i in s.tools ensures Describes(s.tools[i], init + [new']) {
        assert Describes(s.tools[i], blocks);
      }
      forall k | 0 <= k < |tools.order|
        ensures |CallsOf((init + [new'])[..s.tools[tools.order[k]].blockIndex])| == k
      {
        assert Describes(s.tools[tools.order[k]], blocks);
        assert (init + [new'])[..s.tools[tools.order[k]].blockIndex] == blocks[..s.tools[tools.order[k]].blockIndex];
      }
    } else {
      AppendKeepsAgreement(s, blocks, TextBlock(text), content, tools, seen);
    }
  }

  lemma AnnouncementAgrees(s: State, blocks: seq<Block>, f: Fragment, content: string, tools: CallMap, seen: map<int, Name>)
    requires Agrees(s.tools, blocks, content, tools, seen) && f.index !in seen && f.Announces()
    ensures var info := ToolInfo(f.id, f.name, |blocks|);
            Agrees(s.tools[f.index := info], blocks + [ToolBlock(f.id, f.name, Obj([]), f.arguments)],
                   content, GatherFragment(tools, f), See(seen, f))
  {
    var b := ToolBlock(f.id, f.name, Obj([]), f.arguments);
    var t := GatherFragment(tools, f);
    var after := s.tools[f.index := ToolInfo(f.id, f.name, |blocks|)];
    AnnouncedCall(blocks, f, tools);
    assert TextOf(blocks + [b]) == content by {
      TextOfConcat(blocks, [b]);
      assert TextOf([b]) == "" && content + "" == content;
    }
    forall i | i in after ensures Describes(after[i], blocks + [b]) {
      if i != f.index { assert Describes(s.tools[i], blocks); }
    }
    forall k | 0 <= k < |t.order|
      ensures t.order[k] in after && after[t.order[k]].blockIndex <= |blocks + [b]|
      ensures |CallsOf((blocks + [b])[..after[t.order[k]].blockIndex])| == k
    {
      AnnouncedPrefix(s, blocks, f, content, tools, seen, k);
    }
  }

  /** The new block is one more call at the end, in both readings. */
  lemma AnnouncedCall(blocks: seq<Block>, f: Fragment, tools: CallMap)
    requires tools.Valid() && f.index !in tools.calls && f.Announces() && CallsOf(blocks) == tools.Values()
    ensures CallsOf(blocks + [ToolBlock(f.id, f.name, Obj([]), f.arguments)]) == GatherFragment(tools, f).Values()
  {
    var b := ToolBlock(f.id, f.name, Obj([]), f.arguments);
    CallsOfConcat(blocks, [b]);
    assert "" + f.arguments == f.arguments && [b][1..] == [];
    assert GatherFragment(tools, f).Values() == tools.Values() + [Call(f.id, f.name, f.arguments)];
  }

  /** The calls before a tool's block are as many as the tools announced before it. */
  lemma AnnouncedPrefix(s: State, blocks: seq<Block>, f: Fragment, content: string, tools: CallMap, seen: map<int, Name>, k: nat)
    requires Agrees(s.tools, blocks, content, tools, seen) && f.index !in seen && f.Announces()
    requires k < |GatherFragment(tools, f).order|
    ensures var index := GatherFragment(tools, f).order[k];
            var after := s.tools[f.index := ToolInfo(f.id, f.name, |blocks|)];
            var more := blocks + [ToolBlock(f.id, f.name, Obj([]), f.arguments)];
            index in after && after[index].blockIndex <= |blocks| && |CallsOf(more[..after[index].blockIndex])| == k
  {
    var more := blocks + [ToolBlock(f.id, f.name, Obj([]), f.arguments)];
    if k < |tools.order| {
      var other := tools.order[k];
      assert GatherFragment(tools, f).order[k] == other && other in s.tools;
      assert more[..s.tools[other].blockIndex] == blocks[..s.tools[other].blockIndex];
    } else {
      assert more[..|blocks|] == blocks;
      assert |tools.Values()| == |tools.order|;
    }
  }

  lemma ArgumentsAgree(s: State, blocks: seq<Block>, f: Fragment, content: string, tools: CallMap, seen: map<int, Name>)
    requires Agrees(s.tools, blocks, content, tools, seen) && f.index in seen && AnnouncedFragment(seen, f)
    ensures Agrees(s.tools, BlocksAfterFragment(blocks, s.tools, f), content, GatherFragment(tools, f), seen)
  {
    var k :| 0 <= k < |tools.order| && tools.order[k] == f.index;
    var t := GatherFragment(tools, f);
    var call := tools.calls[f.index];
    assert call.id == seen[f.index].id && call.name == seen[f.index].name by {
      assert Describes(s.tools[f.index], blocks);
      CallsOfUpdate(blocks, s.tools[f.index].blockIndex, f.arguments);
      assert tools.Values()[k] == call && CallsOf(blocks)[k] == call;
    }
    assert t.calls[f.index] == call.(arguments := call.arguments + f.arguments);
    assert t.Values() == tools.Values()[k := t.calls[f.index]];
    if f.arguments == "" {
      assert call.arguments + f.arguments == call.arguments;
      assert t.Values() == tools.Values();
    } else {
      MoreArgumentsAgree(s, blocks, f, content, tools, seen, k);
    }
  }

  lemma MoreArgumentsAgree(s: State, blocks: seq<Block>, f: Fragment, content: string, tools: CallMap, seen: map<int, Name>, k: nat)
    requires Agrees(s.tools, blocks, content, tools, seen) && f.index in seen && AnnouncedFragment(seen, f)
    requires k < |tools.order| && tools.order[k] == f.index && f.arguments != ""
    requires var t := GatherFragment(tools, f); t.Values() == tools.Values()[k := t.calls[f.index]]
    ensures Agrees(s.tools, BlocksAfterFragment(blocks, s.tools, f), content, GatherFragment(tools, f), seen)
  {
    assert Describes(s.tools[f.index], blocks);
    CallsOfUpdate(blocks, s.tools[f.index].blockIndex, f.arguments);
    var t := GatherFragment(tools, f);
    assert tools.Values()[k] == tools.calls[f.index] && CallsOf(blocks)[k] == tools.calls[f.index];
    var after := BlocksAfterFragment(blocks, s.tools, f);
    forall j | j in s.tools ensures Describes(s.tools[j], after) {
      assert Describes(s.tools[j], blocks);
    }
    forall m | 0 <= m < |t.order| ensures |CallsOf(after[..s.tools[t.order[m]].blockIndex])| == m {
      PrefixAgrees(s, blocks, f, content, tools, seen, k, m);
    }
  }

  lemma PrefixAgrees(s: State, blocks: seq<Block>, f: Fragment, content: string, tools: CallMap, seen: map<int, Name>,
                     k: nat, m: nat)
    requires Agrees(s.tools, blocks, content, tools, seen) && f.index in seen && AnnouncedFragment(seen, f)
    requires k < |tools.order| && tools.order[k] == f.index && m < |tools.order| && f.arguments != ""
    ensures s.tools[tools.order[m]].blockIndex <= |blocks|
    ensures |CallsOf(BlocksAfterFragment(blocks, s.tools, f)[..s.tools[tools.order[m]].blockIndex])| == m
  {
    var i := s.tools[f.index].blockIndex;
    var other := tools.order[m];
    assert other in s.tools;
    assert Describes(s.tools[f.index], blocks) && Describes(s.tools[other], blocks);
    var j := s.tools[other].blockIndex;
    var after := BlocksAfterFragment(blocks, s.tools, f);
    if i < j {
      assert after[..j] == blocks[..j][i := blocks[i].(json := blocks[i].json + f.arguments)];
      assert blocks[..j][i] == blocks[i];
      CallsOfUpdate(blocks[..j], i, f.arguments);
    } else {
      assert after[..j] == blocks[..j];
    }
  }

  lemma FragmentAgrees(s: State, c: Client, f: Fragment, content: string, tools: CallMap, seen: map<int, Name>)
    requires Mirrors(s, c) && Agrees(s.tools, c.blocks, content, tools, seen) && AnnouncedFragment(seen, f)
    ensures Agrees(FragmentStep(s, f).state.tools, BlocksAfterFragment(c.blocks, s.tools, f), content,
                   GatherFragment(tools, f), See(seen, f))
  {
    if f.index in seen {
      ArgumentsAgree(s, c.blocks, f, content, tools, seen);
    } else {
      AnnouncementAgrees(s, c.blocks, f, content, tools, seen);
      var b := ToolBlock(f.id, f.name, Obj([]), f.arguments);
      assert (c.blocks + [ToolBlock(f.id, f.name, Obj([]), "")])[|c.blocks| := b] == c.blocks + [b];
      var t := FragmentStep(s, f).state;
      assert t.tools == s.tools[f.index := ToolInfo(f.id, f.name, |c.blocks|)];
    }
  }

  lemma {:induction false} FragmentsAgree(s: State, c: Client, w: Watch, fs: seq<Fragment>, content: string,
                                          tools: CallMap, seen: map<int, Name>)
    requires Mirrors(s, c) && s.started && Follows(w, s)
    requires Agrees(s.tools, c.blocks, content, tools, seen) && AnnouncedOnce(seen, fs)
    ensures Agrees(FragmentsStep(s, fs).state.tools, BlocksAfterFragments(c.blocks, s, fs), content,
                   GatherFragments(tools, fs), SeeAll(seen, fs))
    decreases |fs|
  {
    if fs != [] {
      FragmentAgrees(s, c, fs[0], content, tools, seen);
      FragmentReplays(false, s, c, w, fs[0]);
      var d := c.(blocks := BlocksAfterFragment(c.blocks, s.tools, fs[0]), open := c.open || fs[0].Announces());
      FragmentsAgree(FragmentStep(s, fs[0]).state, d, WatchFragment(w, fs[0]), fs[1..], content,
                     GatherFragment(tools, fs[0]), See(seen, fs[0]));
    }
  }

  /** Text, then tool fragments, of one choice. */
  lemma ChoiceAgrees(s: State, c: Client, w: Watch, choice: Choice, content: string, tools: CallMap, seen: map<int, Name>)
    requires Mirrors(s, c) && s.started && Follows(w, s)
    requires Agrees(s.tools, c.blocks, content, tools, seen) && AnnouncedOnce(seen, choice.toolCalls)
    ensures var b := TextStep(s, choice.content).state;
            Agrees(FragmentsStep(b, choice.toolCalls).state.tools,
                   BlocksAfterFragments(BlocksAfterText(c.blocks, c.open, choice.content), b, choice.toolCalls),
                   content + choice.content, GatherFragments(tools, choice.toolCalls), SeeAll(seen, choice.toolCalls))
  {
    TextAgrees(s, c.blocks, c.open, choice.content, content, tools, seen);
    TextReplays(false, s, c, w, choice.content);
    var b := TextStep(s, choice.content).state;
    var d := c.(blocks := BlocksAfterText(c.blocks, c.open, choice.content), open := c.open || choice.content != "");
    FragmentsAgree(b, d, WatchText(w, choice.content), choice.toolCalls, content + choice.content, tools, seen);
  }

  lemma ChunkParts(s: State, c: Client, chunk: Chunk)
    requires chunk.choices != []
    ensures var choice := chunk.choices[0];
            var b := TextStep(s.(started := true), choice.content).state;
            && ChunkStep(s, chunk).state.tools == FragmentsStep(b, choice.toolCalls).state.tools
            && AfterChunk(c, s, chunk).blocks
               == BlocksAfterFragments(BlocksAfterText(c.blocks, c.open, choice.content), b, choice.toolCalls)
  {
    assert StartStep(s, chunk).state == s.(started := true);
  }

  lemma ChunkAgrees(s: State, c: Client, w: Watch, chunk: Chunk, g: Gathered, seen: map<int, Name>)
    requires Mirrors(s, c) && Follows(w, s)
    requires Agrees(s.tools, c.blocks, g.content, g.tools, seen) && AnnouncedOnce(seen, FragmentsOf(chunk))
    ensures var h := GatherChunk(g, chunk);
            Agrees(ChunkStep(s, chunk).state.tools, AfterChunk(c, s, chunk).blocks, h.content, h.tools, SeeAll(seen, FragmentsOf(chunk)))
  {
    if chunk.choices != [] {
      var a := s.(started := true);
      var c1 := c.(phase := Body);
      assert Mirrors(a, c1) && Follows(w, a);
      ChunkParts(s, c, chunk);
      ChoiceAgrees(a, c1, w, chunk.choices[0], g.content, g.tools, seen);
    }
  }

  lemma {:induction false} SilentFragmentsGatherNothing(t: CallMap, seen: map<int, Name>, fs: seq<Fragment>)
    requires t.Valid() && AnnouncedOnce(seen, fs) && seen.Keys == t.calls.Keys
    requires forall i :: i in seen ==> seen[i] == Name(t.calls[i].id, t.calls[i].name)
    requires forall f <- fs :: SilentFragment(seen.Keys, f)
    ensures GatherFragments(t, fs) == t && SeeAll(seen, fs) == seen
    decreases |fs|
  {
    if fs != [] {
      assert fs[0] in fs;
      assert t.calls[fs[0].index].arguments + "" == t.calls[fs[0].index].arguments;
      assert GatherFragment(t, fs[0]).calls == t.calls;
      SilentFragmentsGatherNothing(t, seen, fs[1..]);
    }
  }

  lemma NamesAgree(s: State, blocks: seq<Block>, content: string, tools: CallMap, seen: map<int, Name>)
    requires Agrees(s.tools, blocks, content, tools, seen)
    ensures forall i :: i in seen ==> seen[i] == Name(tools.calls[i].id, tools.calls[i].name)
  {
    forall i | i in seen ensures seen[i] == Name(tools.calls[i].id, tools.calls[i].name) {
      var k :| 0 <= k < |tools.order| && tools.order[k] == i;
      assert Describes(s.tools[i], blocks);
      CallsOfUpdate(blocks, s.tools[i].blockIndex, "");
      assert tools.Values()[k] == tools.calls[i];
    }
  }

  lemma SilentChunkGathersNothing(s: State, blocks: seq<Block>, w: Watch, chunk: Chunk, g: Gathered, seen: map<int, Name>)
    requires Agrees(s.tools, blocks, g.content, g.tools, seen) && AnnouncedOnce(seen, FragmentsOf(chunk))
    requires w.known == s.tools.Keys && Silent(w, chunk)
    ensures var h := GatherChunk(g, chunk);
            h.content == g.content && h.tools == g.tools && h.finish == g.finish && SeeAll(seen, FragmentsOf(chunk)) == seen
    ensures s.started && !s.open ==> ChunkStep(s, chunk).state == s
  {
    NamesAgree(s, blocks, g.content, g.tools, seen);
    SilentFragmentsGatherNothing(g.tools, seen, FragmentsOf(chunk));
    assert g.content + "" == g.content;
    if s.started && !s.open {
      FinishedChunk(false, s, Fresh.(phase := Ended), w, chunk);
    }
  }

  lemma {:induction false} RunAgrees(s: State, c: Client, w: Watch, chunks: seq<Chunk>, g: Gathered, seen: map<int, Name>)
    requires InStep(s, c, w) && Orderly(false, w, chunks)
    requires Agrees(s.tools, c.blocks, g.content, g.tools, seen) && AnnouncedOnce(seen, AllFragments(chunks))
    requires w.finished ==> c.stopReason == Some(MapStopReason(g.finish))
    ensures var d, h := AfterRun(c, s, w, chunks), Gather(g, chunks);
            && TextOf(d.blocks) == h.content
            && CallsOf(d.blocks) == h.tools.Values()
            && (d.phase == Ended ==> d.stopReason == Some(MapStopReason(h.finish)))
    decreases |chunks|
  {
    if chunks != [] {
      var chunk := chunks[0];
      AnnouncedSplit(seen, FragmentsOf(chunk), AllFragments(chunks[1..]));
      var h := GatherChunk(g, chunk);
      if w.finished {
        SilentChunkGathersNothing(s, c.blocks, w, chunk, g, seen);
        RunAgrees(s, c, w, chunks[1..], h, seen);
      } else {
        ChunkReplays(false, s, c, w, chunk);
        WatchFinishes(w, chunk);
        ChunkAgrees(s, c, w, chunk, g, seen);
        RunAgrees(ChunkStep(s, chunk).state, AfterChunk(c, s, chunk), WatchChunk(w, chunk), chunks[1..], h,
                  SeeAll(seen, FragmentsOf(chunk)));
      }
    }
  }

  /**
   Streaming refines aggregation: replaying the translated events of a stream gives the
   text, the tool calls in order with their whole argument texts, and the stop reason
   that the aggregating reader computes from the same chunks.
   */
  lemma StreamingRefinesAggregation(chunks: seq<Chunk>)
    requires Orderly(false, Unseen, chunks) && AnnouncedOnce(map[], AllFragments(chunks))
    ensures var read := Replay(false, Fresh, Run(Initial, chunks).events);
            var g := Gather(Nothing, chunks);
            && read.Some?
            && TextOf(read.value.blocks) == g.content
            && CallsOf(read.value.blocks) == g.tools.Values()
            && (read.value.phase == Ended ==> read.value.stopReason == Some(MapStopReason(g.finish)))
  {
    StreamIsWellFormed(false, chunks);
    RunAgrees(Initial, Fresh, Unseen, chunks, Nothing, map[]);
  }

  // ----- what the aggregate is, chunk by chunk -----

  lemma {:induction false} GatherSnoc(g: Gathered, chunks: seq<Chunk>, chunk: Chunk)
    requires g.tools.Valid()
    ensures Gather(g, chunks + [chunk]) == GatherChunk(Gather(g, chunks), chunk)
    decreases |chunks|
  {
    if chunks == [] {
      assert [] + [chunk] == [chunk] && [chunk][1..] == [];
    } else {
      GatherSnoc(GatherChunk(g, chunks[0]), chunks[1..], chunk);
      HeadTail(chunks, [chunk]);
    }
  }

  /** The text of a chunk's first choice. */
  function ContentOf(chunk: Chunk): string {
    if chunk.choices == [] then "" else chunk.choices[0].content
  }

  predicate LastWith<E>(s: seq<E>, has: E -> bool, k: int) {
    0 <= k < |s| && has(s[k]) && forall j :: k < j < |s| ==> !has(s[j])
  }

  predicate NoneWith<E>(s: seq<E>, has: E -> bool) {
    forall j :: 0 <= j < |s| ==> !has(s[j])
  }

  /** What is set is what the last element that has it says; `unset` when none does. */
  ghost predicate IsLatest<E(!new), T(!new)>(s: seq<E>, has: E -> bool, of: E -> T, unset: T, value: T) {
    if NoneWith(s, has) then value == unset
    else exists k :: LastWith(s, has, k) && value == of(s[k])
  }

  lemma LatestMore<E(!new), T(!new)>(s: seq<E>, x: E, has: E -> bool, of: E -> T, unset: T, value: T)
    requires IsLatest(s, has, of, unset, value)
    ensures IsLatest(s + [x], has, of, unset, if has(x) then of(x) else value)
  {
    var more := s + [x];
    if has(x) {
      assert LastWith(more, has, |s|);
    } else if !NoneWith(s, has) {
      var k :| LastWith(s, has, k) && value == of(s[k]);
      assert LastWith(more, has, k);
    }
  }

  predicate HasId(c: Chunk) { c.id != "" }
  predicate HasModel(c: Chunk) { c.model != "" }
  predicate HasUsage(c: Chunk) { c.usage.Some? }
  predicate HasFinish(c: Chunk) { c.choices != [] && c.choices[0].finish.Some? }

  function FinishOf(c: Chunk): FinishReason { if HasFinish(c) then c.choices[0].finish.value else Stop }

  function IdOf(c: Chunk): string { c.id }
  function ModelOf(c: Chunk): string { c.model }
  function UsageOf(c: Chunk): Option<Usage> { c.usage }

  function Contents(chunks: seq<Chunk>): seq<string> {
    seq(|chunks|, i requires 0 <= i < |chunks| => ContentOf(chunks[i]))
  }

  ghost predicate SettingsAreLatest(chunks: seq<Chunk>, g: Gathered) {
    && IsLatest(chunks, HasId, IdOf, "", g.id)
    && IsLatest(chunks, HasModel, ModelOf, "", g.model)
    && IsLatest(chunks, HasUsage, UsageOf, None, g.usage)
    && IsLatest(chunks, HasFinish, FinishOf, Stop, g.finish)
  }

  lemma SettingsMore(chunks: seq<Chunk>, chunk: Chunk, g: Gathered)
    requires g.tools.Valid() && SettingsAreLatest(chunks, g)
    ensures SettingsAreLatest(chunks + [chunk], GatherChunk(g, chunk))
  {
    LatestMore(chunks, chunk, HasId, IdOf, "", g.id);
    LatestMore(chunks, chunk, HasModel, ModelOf, "", g.model);
    LatestMore(chunks, chunk, HasUsage, UsageOf, None, g.usage);
    LatestMore(chunks, chunk, HasFinish, FinishOf, Stop, g.finish);
  }

  lemma ContentsMore(chunks: seq<Chunk>, chunk: Chunk, g: Gathered)
    requires g.tools.Valid() && g.content == Flat(Contents(chunks))
    ensures GatherChunk(g, chunk).content == Flat(Contents(chunks + [chunk]))
  {
    assert Contents(chunks + [chunk]) == Contents(chunks) + [ContentOf(chunk)];
    FlatSnoc(Contents(chunks), ContentOf(chunk));
    assert g.content + "" == g.content;
  }

  /**
   The aggregate of any chunks: its text is theirs, one after the other, and its id, model,
   usage and finish reason are those of the last chunk that has one. A chunk needs no choice
   for its usage to count.
   */
  lemma {:induction false} AggregateExactly(chunks: seq<Chunk>)
    ensures var g := Gather(Nothing, chunks); g.content == Flat(Contents(chunks)) && SettingsAreLatest(chunks, g)
    decreases |chunks|
  {
    if chunks != [] {
      var init, last := chunks[..|chunks| - 1], chunks[|chunks| - 1];
      assert chunks == init + [last];
      AggregateExactly(init);
      GatherSnoc(Nothing, init, last);
      SettingsMore(init, last, Gather(Nothing, init));
      ContentsMore(init, last, Gather(Nothing, init));
    }
  }

  // ----- the calls of the aggregate, fragment by fragment -----

  lemma {:induction false} GatherFragmentsConcat(t: CallMap, a: seq<Fragment>, b: seq<Fragment>)
    requires t.Valid()
    ensures GatherFragments(t, a + b) == GatherFragments(GatherFragments(t, a), b)
    decreases |a|
  {
    if a == [] {
      assert a + b == b;
    } else {
      GatherFragmentsConcat(GatherFragment(t, a[0]), a[1..], b);
      HeadTail(a, b);
    }
  }

  lemma {:induction false} ToolsOfChunks(g: Gathered, chunks: seq<Chunk>)
    requires g.tools.Valid()
    ensures Gather(g, chunks).tools == GatherFragments(g.tools, AllFragments(chunks))
    decreases |chunks|
  {
    if chunks != [] {
      ToolsOfChunks(GatherChunk(g, chunks[0]), chunks[1..]);
      GatherFragmentsConcat(g.tools, FragmentsOf(chunks[0]), AllFragments(chunks[1..]));
    }
  }

  predicate Mentions(f: Fragment, index: int) { f.index == index }

  function IdFor(index: int): Fragment -> bool { (f: Fragment) => f.index == index && f.id != "" }

  function NameFor(index: int): Fragment -> bool { (f: Fragment) => f.index == index && f.name != "" }

  function FragmentId(f: Fragment): string { f.id }

  function FragmentName(f: Fragment): string { f.name }

  /** The argument pieces for one tool, in order, "" for the fragments of others. */
  function PiecesFor(fs: seq<Fragment>, index: int): seq<string> {
    seq(|fs|, k requires 0 <= k < |fs| => if fs[k].index == index then fs[k].arguments else "")
  }

  /** The call of one tool: the latest id and name it was given, and all its argument pieces one after the other. */
  ghost predicate GathersCall(fs: seq<Fragment>, index: int, call: Call) {
    && IsLatest(fs, IdFor(index), FragmentId, "", call.id)
    && IsLatest(fs, NameFor(index), FragmentName, "", call.name)
    && call.arguments == Flat(PiecesFor(fs, index))
  }

  predicate Mentioned(fs: seq<Fragment>, index: int) {
    exists f <- fs :: Mentions(f, index)
  }

  /** There is one call for every tool mentioned, in the order of first mention. */
  ghost predicate GathersCalls(fs: seq<Fragment>, t: CallMap) {
    && t.Valid()
    && (forall index :: index in t.calls <==> Mentioned(fs, index))
    && (forall index :: index in t.calls ==> GathersCall(fs, index, t.calls[index]))
    && forall a, b :: 0 <= a < b < |t.order| ==> MentionedFirst(fs, t.order[a], t.order[b])
  }

  /** Some prefix mentions the one tool and not the other. */
  predicate MentionedFirst(fs: seq<Fragment>, a: int, b: int) {
    exists n :: 0 <= n <= |fs| && MentionedFirstWithin(fs, n, a, b)
  }

  predicate MentionedFirstWithin(fs: seq<Fragment>, n: nat, a: int, b: int)
    requires n <= |fs|
  {
    Mentioned(fs[..n], a) && !Mentioned(fs[..n], b)
  }

  lemma CallMore(fs: seq<Fragment>, f: Fragment, index: int, call: Call)
    requires GathersCall(fs, index, call)
    ensures GathersCall(fs + [f], index,
                        if f.index == index
                        then Call(if f.id != "" then f.id else call.id, if f.name != "" then f.name else call.name,
                                  call.arguments + f.arguments)
                        else call)
  {
    LatestMore(fs, f, IdFor(index), FragmentId, "", call.id);
    LatestMore(fs, f, NameFor(index), FragmentName, "", call.name);
    var piece := if f.index == index then f.arguments else "";
    assert PiecesFor(fs + [f], index) == PiecesFor(fs, index) + [piece];
    FlatSnoc(PiecesFor(fs, index), piece);
    assert call.arguments + "" == call.arguments;
  }

  lemma {:induction false} NothingMentioned(fs: seq<Fragment>, index: int)
    requires !Mentioned(fs, index)
    ensures GathersCall(fs, index, Call("", "", ""))
  {
    forall k | 0 <= k < |fs| ensures !Mentions(fs[k], index) { assert fs[k] in fs; }
    NoPieces(fs, index);
  }

  lemma {:induction false} NoPieces(fs: seq<Fragment>, index: int)
    requires forall k :: 0 <= k < |fs| ==> !Mentions(fs[k], index)
    ensures Flat(PiecesFor(fs, index)) == ""
  {
    if fs != [] {
      NoPieces(fs[1..], index);
      assert PiecesFor(fs, index) == [""] + PiecesFor(fs[1..], index);
      FlatMore("", PiecesFor(fs[1..], index));
    }
  }

  lemma FirstMentionStays(fs: seq<Fragment>, f: Fragment, a: int, b: int)
    requires MentionedFirst(fs, a, b)
    ensures MentionedFirst(fs + [f], a, b)
  {
    var n :| 0 <= n <= |fs| && MentionedFirstWithin(fs, n, a, b);
    assert (fs + [f])[..n] == fs[..n];
    assert MentionedFirstWithin(fs + [f], n, a, b);
  }

  lemma OrderMore(fs: seq<Fragment>, f: Fragment, t: CallMap, a: nat, b: nat)
    requires GathersCalls(fs, t) && a < b < |GatherFragment(t, f).order|
    ensures MentionedFirst(fs + [f], GatherFragment(t, f).order[a], GatherFragment(t, f).order[b])
  {
    if b < |t.order| {
      FirstMentionStays(fs, f, t.order[a], t.order[b]);
    } else {
      assert (fs + [f])[..|fs|] == fs;
      assert MentionedFirstWithin(fs + [f], |fs|, t.order[a], f.index);
    }
  }

  lemma MentionedMore(fs: seq<Fragment>, f: Fragment, index: int)
    ensures Mentioned(fs + [f], index) <==> Mentioned(fs, index) || f.index == index
  {
    assert forall g :: g in fs + [f] <==> g in fs || g == f;
    assert Mentions(f, f.index);
  }

  lemma CallsMore(fs: seq<Fragment>, f: Fragment, t: CallMap)
    requires GathersCalls(fs, t)
    ensures GathersCalls(fs + [f], GatherFragment(t, f))
  {
    var u := GatherFragment(t, f);
    forall index ensures index in u.calls <==> Mentioned(fs + [f], index) { MentionedMore(fs, f, index); }
    forall index | index in u.calls ensures GathersCall(fs + [f], index, u.calls[index]) {
      if index in t.calls {
        CallMore(fs, f, index, t.calls[index]);
      } else {
        NothingMentioned(fs, index);
        CallMore(fs, f, index, Call("", "", ""));
      }
    }
    forall a, b | 0 <= a < b < |u.order| ensures MentionedFirst(fs + [f], u.order[a], u.order[b]) {
      OrderMore(fs, f, t, a, b);
    }
  }

  lemma {:induction false} FragmentsGather(fs: seq<Fragment>)
    ensures GathersCalls(fs, GatherFragments(Nothing.tools, fs))
    decreases |fs|
  {
    if fs != [] {
      var init, last := fs[..|fs| - 1], fs[|fs| - 1];
      assert fs == init + [last];
      FragmentsGather(init);
      GatherFragmentsConcat(Nothing.tools, init, [last]);
      assert [last][1..] == [];
      CallsMore(init, last, GatherFragments(Nothing.tools, init));
    }
  }

  /** The calls of the aggregate of any chunks, announced once or not. */
  lemma AggregateCallsExactly(chunks: seq<Chunk>)
    ensures GathersCalls(AllFragments(chunks), Gather(Nothing, chunks).tools)
  {
    ToolsOfChunks(Nothing, chunks);
    FragmentsGather(AllFragments(chunks));
  }

  predicate IsReadable(e: RawEvent) { e.Data? }

  predicate IsChunkOf(e: RawEvent, chunk: Chunk) { e.Data? && chunk == e.chunk }

  /** The aggregator reads exactly the readable events, in order, whether before or after an end marker. */
  lemma {:induction false} ReceivedExactly(events: seq<RawEvent>)
    ensures Filtered(events, IsReadable, IsChunkOf, Received(events))
  {
    if events == [] {
      FilteredNone(IsReadable, IsChunkOf);
    } else {
      ReceivedExactly(events[1..]);
      FilteredMore(events, IsReadable, IsChunkOf, if events[0].Data? then [events[0].chunk] else [], Received(events[1..]));
    }
  }

  /**
   The reply aggregated from a stream, said on its readable events: their text, if there is any,
   the latest id, model, usage and finish reason, and the calls in the order of first mention.
   */
  lemma ReplyExactly(events: seq<RawEvent>) returns (chunks: seq<Chunk>, tools: CallMap)
    ensures Filtered(events, IsReadable, IsChunkOf, chunks)
    ensures GathersCalls(AllFragments(chunks), tools)
    ensures var reply, text := ReplyOf(Gather(Nothing, Received(events))), Flat(Contents(chunks));
            && reply.content == (if text == "" then None else Some(text))
            && IsLatest(chunks, HasId, IdOf, "", reply.id) && IsLatest(chunks, HasModel, ModelOf, "", reply.model)
            && IsLatest(chunks, HasUsage, UsageOf, None, reply.usage) && IsLatest(chunks, HasFinish, FinishOf, Stop, reply.finish)
            && |reply.toolCalls| == |tools.order|
            && forall k :: 0 <= k < |tools.order| ==> reply.toolCalls[k] == tools.calls[tools.order[k]]
  {
    chunks := Received(events);
    tools := Gather(Nothing, chunks).tools;
    ReceivedExactly(events);
    AggregateExactly(chunks);
    AggregateCallsExactly(chunks);
  }
}
