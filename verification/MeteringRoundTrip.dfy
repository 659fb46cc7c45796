/**
 What the meter reads back from the translators' own output: whole messages
 (routes/messages/non-stream-translation.ts) and streams (routes/messages/stream-translation.ts).
 */
module MeteringRoundTrip {
  import opened Common
  import E = StreamEvents
  import T = StreamTranslation
  import C = ChatResponses
  import G = StreamGrammar
  import opened SseLines
  import opened UsageMetering

  /** An Anthropic usage object on the wire. */
  function RawOf(u: E.WireUsage): RawUsage {
    BareUsage.(inputTokens := u.inputTokens, outputTokens := Some(u.outputTokens), cacheReadInputTokens := u.cacheRead)
  }

  /** The JSON body of a whole message. */
  function BodyOf(m: C.AnthropicMessage): UsageObject {
    UsageObject(Some(m.model), Some(RawOf(m.usage)), NoInner, NoInner, None)
  }

  /** The JSON data of one event. */
  function DataOf(e: E.Event): UsageObject {
    match e
    case MessageStart(_, model, usage) => UsageObject(None, None, Inner(Some(model), Some(RawOf(usage))), NoInner, None)
    case MessageDelta(_, usage) => UsageObject(None, Some(RawOf(usage)), NoInner, NoInner, None)
    case _ => UsageObject(None, None, NoInner, NoInner, None)
  }

  /** The counts an upstream usage stands for. */
  function Original(u: T.Usage): Counts {
    Counts(Some(u.promptTokens), Some(u.completionTokens), u.cachedTokens, None, None,
           Some(u.promptTokens + u.completionTokens), None)
  }

  /** Translating a whole response and metering the result gives back the upstream counts. */
  lemma WholeMessageRoundTrip(r: C.ChatResponse, clientModel: Option<string>, parse: C.InputParser)
    requires r.usage.Some?
    ensures var n := NormalizeUsage(BodyOf(C.ToAnthropic(r, clientModel, parse)));
            n == Some(NormalizedUsage(Some(clientModel.GetOr(r.model)), Original(r.usage.value)))
  {
  }

  // ----- streams -----

  function PartialsOf(events: seq<E.Event>): seq<NormalizedUsage> {
    if events == [] then []
    else
      match NormalizeUsage(DataOf(events[0]))
      case None => PartialsOf(events[1..])
      case Some(p) => [p] + PartialsOf(events[1..])
  }

  function Metered(events: seq<E.Event>): Counts {
    MergeAll(NoUsage, PartialsOf(events)).counts
  }

  lemma MeteredIsTotal(events: seq<E.Event>)
    ensures Metered(events) == TotalCounts(PartialsOf(events))
  {
    MergeAllCounts(NoUsage, PartialsOf(events));
    MergeCountsLaws(TotalCounts(PartialsOf(events)), NoCounts, NoCounts);
  }

  lemma {:induction false} PartialsConcat(a: seq<E.Event>, b: seq<E.Event>)
    ensures PartialsOf(a + b) == PartialsOf(a) + PartialsOf(b)
  {
    if a == [] {
      assert a + b == b;
    } else {
      PartialsConcat(a[1..], b);
      HeadTail(a, b);
      var p := NormalizeUsage(DataOf(a[0]));
      if p.Some? { Associative([p.value], PartialsOf(a[1..]), PartialsOf(b)); }
    }
  }

  lemma MeteredConcat(a: seq<E.Event>, b: seq<E.Event>)
    ensures Metered(a + b) == MergeCounts(Metered(a), Metered(b))
  {
    PartialsConcat(a, b);
    TotalCountsConcat(PartialsOf(a), PartialsOf(b));
    MeteredIsTotal(a);
    MeteredIsTotal(b);
    MeteredIsTotal(a + b);
  }

  predicate CarriesNoUsage(e: E.Event) {
    !e.MessageStart? && !e.MessageDelta?
  }

  lemma {:induction false} SilentEvents(events: seq<E.Event>)
    requires forall e <- events :: CarriesNoUsage(e)
    ensures Metered(events) == NoCounts
  {
    if events != [] {
      assert events[0] in events;
      SilentEvents(events[1..]);
      MeteredIsTotal(events);
      MeteredIsTotal(events[1..]);
    }
  }

  lemma MeteredOne(e: E.Event)
    requires !CarriesNoUsage(e)
    ensures Metered([e]) == NormalizeUsage(DataOf(e)).value.counts
  {
    assert [e][1..] == [];
    MeteredIsTotal([e]);
    TotalCountsOfOne(NormalizeUsage(DataOf(e)).value);
  }

  lemma {:induction false} FragmentEventsSilent(s: T.State, fs: seq<T.Fragment>)
    ensures forall e <- T.FragmentsStep(s, fs).events :: CarriesNoUsage(e)
    decreases |fs|
  {
    if fs != [] { FragmentEventsSilent(T.FragmentStep(s, fs[0]).state, fs[1..]); }
  }

  /** The counts of the message_start of a chunk, and of its message_delta. */
  function StartCounts(usage: Option<T.Usage>): Counts { CountsOf(RawOf(T.InputUsage(usage, 0)), None) }

  function FinishCounts(usage: Option<T.Usage>): Counts {
    CountsOf(RawOf(T.InputUsage(usage, match usage case None => 0 case Some(u) => u.completionTokens)), None)
  }

  function ChunkCounts(started: bool, chunk: T.Chunk): Counts {
    if chunk.choices == [] then NoCounts
    else MergeCounts(if started then NoCounts else StartCounts(chunk.usage),
                     if chunk.choices[0].finish.Some? then FinishCounts(chunk.usage) else NoCounts)
  }

  lemma ChunkMetered(s: T.State, chunk: T.Chunk)
    ensures Metered(T.ChunkStep(s, chunk).events) == ChunkCounts(s.started, chunk)
    ensures T.ChunkStep(s, chunk).state.started == (s.started || chunk.choices != [])
  {
    if chunk.choices != [] {
      var choice := chunk.choices[0];
      var a := T.StartStep(s, chunk);
      var b := T.TextStep(a.state, choice.content);
      var c := T.FragmentsStep(b.state, choice.toolCalls);
      var d := T.FinishStep(c.state, chunk, choice.finish);
      FragmentEventsSilent(b.state, choice.toolCalls);
      SilentEvents(b.events);
      SilentEvents(c.events);
      StartMetered(s, chunk);
      FinishMetered(c.state, chunk, choice.finish);
      MeteredConcat(a.events, b.events);
      MeteredConcat(a.events + b.events, c.events);
      MeteredConcat(a.events + b.events + c.events, d.events);
      MergeCountsLaws(Metered(a.events), NoCounts, NoCounts);
      G.FragmentsKeepStarted(b.state, choice.toolCalls);
    }
  }

  lemma StartMetered(s: T.State, chunk: T.Chunk)
    ensures Metered(T.StartStep(s, chunk).events) == if s.started then NoCounts else StartCounts(chunk.usage)
  {
    if !s.started {
      MeteredOne(T.StartStep(s, chunk).events[0]);
    }
  }

  lemma FinishMetered(s: T.State, chunk: T.Chunk, finish: Option<T.FinishReason>)
    ensures Metered(T.FinishStep(s, chunk, finish).events) == if finish.Some? then FinishCounts(chunk.usage) else NoCounts
  {
    if finish.Some? {
      var stop := if s.open then [E.BlockStop(s.index)] else [];
      var d := T.FinishStep(s, chunk, finish).events[|stop|];
      SilentEvents(stop);
      SilentEvents([E.MessageStop]);
      MeteredOne(d);
      MeteredConcat([d], [E.MessageStop]);
      MeteredConcat(stop, [d] + [E.MessageStop]);
      assert T.FinishStep(s, chunk, finish).events == stop + ([d] + [E.MessageStop]);
      MergeCountsLaws(Metered([d]), NoCounts, NoCounts);
    }
  }

  // ----- usage anywhere -----

  /** The counts announced by the first chunk with a choice. */
  function FirstStart(chunks: seq<T.Chunk>): Counts {
    if chunks == [] then NoCounts
    else if chunks[0].choices != [] then StartCounts(chunks[0].usage)
    else FirstStart(chunks[1..])
  }

  /** The counts of all finish chunks, merged. */
  function FinishTotal(chunks: seq<T.Chunk>): Counts {
    if chunks == [] then NoCounts
    else if chunks[0].choices != [] && chunks[0].choices[0].finish.Some?
    then MergeCounts(FinishCounts(chunks[0].usage), FinishTotal(chunks[1..]))
    else FinishTotal(chunks[1..])
  }

  /**
   What any stream meters to, from any translator state and with usage on any chunk: the
   counts of the chunk that starts the message merged with those of its finish chunks.
   */
  lemma {:induction false} AnyRunMetered(s: T.State, chunks: seq<T.Chunk>)
    ensures Metered(T.Run(s, chunks).events)
            == MergeCounts(if s.started then NoCounts else FirstStart(chunks), FinishTotal(chunks))
    decreases |chunks|
  {
    if chunks != [] {
      var head := T.ChunkStep(s, chunks[0]);
      var rest := FinishTotal(chunks[1..]);
      ChunkMetered(s, chunks[0]);
      AnyRunMetered(head.state, chunks[1..]);
      MeteredConcat(head.events, T.Run(head.state, chunks[1..]).events);
      if chunks[0].choices != [] {
        var start := if s.started then NoCounts else StartCounts(chunks[0].usage);
        var finish := if chunks[0].choices[0].finish.Some? then FinishCounts(chunks[0].usage) else NoCounts;
        MergeCountsLaws(start, finish, rest);
        MergeCountsLaws(NoCounts, rest, rest);
      } else {
        MergeCountsLaws(NoCounts, MergeCounts(if s.started then NoCounts else FirstStart(chunks[1..]), rest), rest);
      }
    }
  }

  // ----- usage that rides only on the finish chunk -----

  predicate UsageOnFinishOnly(chunks: seq<T.Chunk>, u: T.Usage) {
    forall ch <- chunks :: ch.choices != [] ==> ch.usage == (if ch.choices[0].finish.Some? then Some(u) else None)
  }

  predicate Finished(chunks: seq<T.Chunk>) {
    exists ch <- chunks :: ch.choices != [] && ch.choices[0].finish.Some?
  }

  predicate Begun(chunks: seq<T.Chunk>) {
    exists ch <- chunks :: ch.choices != []
  }

  const ZeroCounts := Counts(Some(0), Some(0), None, None, None, Some(0), None)

  lemma {:induction false} RunMetered(s: T.State, chunks: seq<T.Chunk>, u: T.Usage)
    requires UsageOnFinishOnly(chunks, u) && u.promptTokens >= 0 && u.completionTokens >= 0
    ensures var m := Metered(T.Run(s, chunks).events);
            if Finished(chunks) then m == Original(u)
            else m == (if Begun(chunks) && !s.started then ZeroCounts else NoCounts)
    decreases |chunks|
  {
    if chunks != [] {
      var head := T.ChunkStep(s, chunks[0]);
      ChunkMetered(s, chunks[0]);
      assert chunks[0] in chunks;
      assert chunks == [chunks[0]] + chunks[1..];
      ChunkValues(s.started, chunks[0], u);
      RunMetered(head.state, chunks[1..], u);
      MeteredConcat(head.events, T.Run(head.state, chunks[1..]).events);
      MergeValues(u);
    }
  }

  lemma ChunkValues(started: bool, chunk: T.Chunk, u: T.Usage)
    requires chunk.choices != [] ==> chunk.usage == (if chunk.choices[0].finish.Some? then Some(u) else None)
    requires u.promptTokens >= 0 && u.completionTokens >= 0
    ensures ChunkCounts(started, chunk)
            == if chunk.choices == [] then NoCounts
               else if chunk.choices[0].finish.Some? then Original(u)
               else if started then NoCounts else ZeroCounts
  {
  }

  lemma MergeValues(u: T.Usage)
    requires u.promptTokens >= 0 && u.completionTokens >= 0
    ensures MergeCounts(Original(u), ZeroCounts) == Original(u) == MergeCounts(ZeroCounts, Original(u))
    ensures MergeCounts(Original(u), Original(u)) == Original(u)
    ensures MergeCounts(Original(u), NoCounts) == Original(u) == MergeCounts(NoCounts, Original(u))
    ensures MergeCounts(ZeroCounts, NoCounts) == ZeroCounts == MergeCounts(NoCounts, ZeroCounts)
    ensures MergeCounts(NoCounts, NoCounts) == NoCounts
  {
  }

  /**
   When the usage rides only on finish chunks, merging the usages of the translated stream
   gives back the upstream prompt, completion and cached counts.
   */
  lemma StreamRoundTrip(chunks: seq<T.Chunk>, u: T.Usage)
    requires UsageOnFinishOnly(chunks, u) && Finished(chunks)
    requires u.promptTokens >= 0 && u.completionTokens >= 0
    ensures Metered(T.Run(T.Initial, chunks).events) == Original(u)
  {
    RunMetered(T.Initial, chunks, u);
  }

  predicate NoUsageOnChoices(chunks: seq<T.Chunk>) {
    forall ch <- chunks :: ch.choices != [] ==> ch.usage == None
  }

  /** A usage that comes on a chunk of its own, without choices, is lost: the stream meters as zero. */
  lemma {:induction false} TrailingUsageIsLost(s: T.State, chunks: seq<T.Chunk>)
    requires NoUsageOnChoices(chunks)
    ensures var m := Metered(T.Run(s, chunks).events); m == ZeroCounts || m == NoCounts
    decreases |chunks|
  {
    if chunks != [] {
      var head := T.ChunkStep(s, chunks[0]);
      ChunkMetered(s, chunks[0]);
      assert chunks[0] in chunks;
      TrailingUsageIsLost(head.state, chunks[1..]);
      MeteredConcat(head.events, T.Run(head.state, chunks[1..]).events);
    }
  }

  /** Whatever usage follows a finish chunk on a chunk of its own, the stream meters as zero. */
  lemma UsageAfterFinishIsLost(id: string, model: string, text: string, u: T.Usage)
    ensures var chunks := [T.Chunk(id, model, None, [T.Choice(text, [], Some(T.Stop))]), T.Chunk(id, model, Some(u), [])];
            Metered(T.Run(T.Initial, chunks).events) == ZeroCounts
  {
    var finish, usage := T.Chunk(id, model, None, [T.Choice(text, [], Some(T.Stop))]), T.Chunk(id, model, Some(u), []);
    assert [finish, usage][1..] == [usage] && [usage][1..] == [];
    AnyRunMetered(T.Initial, [finish, usage]);
    assert FinishTotal([]) == NoCounts && FinishTotal([usage]) == NoCounts;
    assert StartCounts(None) == ZeroCounts == FinishCounts(None);
    assert FirstStart([finish, usage]) == ZeroCounts;
    assert FinishTotal([finish, usage]) == MergeCounts(ZeroCounts, NoCounts);
  }

  // ----- from the text of a stream to its counts -----

  type Writer = E.Event -> string

  /** The parser reads the JSON text of every event back, and the text fits on a data line. */
  ghost predicate ReadsBack(parse: Parser, write: Writer, events: seq<E.Event>) {
    forall e <- events :: var json := write(e);
      Tight(json) && json != "" && json != "[DONE]" && OneLine(json) && parse(json) == Some(DataOf(e))
  }

  /** The lines an event is sent as: its kind, its data and a blank line. */
  function EventLines(kind: Writer, write: Writer, e: E.Event): seq<string> {
    ["event: " + kind(e), "data: " + write(e), ""]
  }

  function WireLines(kind: Writer, write: Writer, events: seq<E.Event>): seq<string> {
    if events == [] then [] else EventLines(kind, write, events[0]) + WireLines(kind, write, events[1..])
  }

  lemma KindLineIsSilent(parse: Parser, kind: string)
    ensures PartialOf(parse, "event: " + kind) == None
  {
    var line := "event: " + kind;
    assert line[0] == 'e' && TrimStart(line) == line;
    var after := TrimEndSplits(line);
    assert Trim(line) <= line;
    assert !("data:" <= line) by { assert "data:"[0] == 'd'; }
  }

  lemma EventLinesReport(parse: Parser, kind: Writer, write: Writer, e: E.Event)
    requires ReadsBack(parse, write, [e])
    ensures var lines := EventLines(kind, write, e);
            && PartialOf(parse, lines[0]) == None && PartialOf(parse, lines[2]) == None
            && PartialOf(parse, lines[1]) == NormalizeUsage(DataOf(e))
  {
    assert e in [e];
    var json := write(e);
    KindLineIsSilent(parse, kind(e));
    assert "data: " == "data:" + " ";
    assert "data: " + json == "" + "data:" + " " + json + "";
    assert IsDataLine("data: " + json, "", " ", json, "");
    DataLineTrims("data: " + json, "", " ", json, "");
    TrimIs("", "", "");
  }

  lemma PartialsOfThree(parse: Parser, lines: seq<string>, rest: seq<string>)
    requires |lines| == 3 && PartialOf(parse, lines[0]) == None && PartialOf(parse, lines[2]) == None
    ensures var p := PartialOf(parse, lines[1]);
            Partials(parse, lines + rest) == (if p.Some? then [p.value] + Partials(parse, rest) else Partials(parse, rest))
  {
    var all := lines + rest;
    var last := [lines[2]] + rest;
    assert all[0] == lines[0] && all[1..] == [lines[1]] + last;
    assert last[0] == lines[2] && last[1..] == rest;
    assert ([lines[1]] + last)[1..] == last;
    assert Partials(parse, last) == Partials(parse, rest);
  }

  lemma {:induction false} WireReports(parse: Parser, kind: Writer, write: Writer, events: seq<E.Event>)
    requires ReadsBack(parse, write, events)
    ensures Partials(parse, WireLines(kind, write, events)) == PartialsOf(events)
  {
    if events != [] {
      assert events[0] in events;
      WireReports(parse, kind, write, events[1..]);
      EventLinesReport(parse, kind, write, events[0]);
      PartialsOfThree(parse, EventLines(kind, write, events[0]), WireLines(kind, write, events[1..]));
    }
  }

  lemma {:induction false} WireLinesAreLines(kind: Writer, write: Writer, events: seq<E.Event>)
    requires forall e <- events :: OneLine(kind(e)) && OneLine(write(e))
    ensures forall l <- WireLines(kind, write, events) :: OneLine(l)
  {
    if events != [] {
      var e := events[0];
      assert e in events;
      WireLinesAreLines(kind, write, events[1..]);
      assert forall l <- EventLines(kind, write, e) :: l == "event: " + kind(e) || l == "data: " + write(e) || l == "";
      assert OneLine("event: ") && OneLine("data: ");
    }
  }

  /** The model of the first message_start. */
  function FirstModel(events: seq<E.Event>): Option<string> {
    if events == [] then None
    else if events[0].MessageStart? then Some(events[0].model)
    else FirstModel(events[1..])
  }

  lemma {:induction false} ModelOfEvents(u: NormalizedUsage, events: seq<E.Event>)
    ensures MergeAll(u, PartialsOf(events)).model == OrElse(u.model, FirstModel(events))
    decreases |events|
  {
    if events != [] {
      var p := NormalizeUsage(DataOf(events[0]));
      if p.Some? {
        ModelOfEvents(MergeUsage(u, p.value), events[1..]);
        assert PartialsOf(events)[1..] == PartialsOf(events[1..]);
      } else {
        ModelOfEvents(u, events[1..]);
      }
    }
  }

  /**
   End to end: however the text of a stream of events is cut into reads, the meter comes to the
   merged counts of the events and to the model of the first message_start.
   */
  lemma WrittenStreamMeters(parse: Parser, kind: Writer, write: Writer, events: seq<E.Event>, pieces: seq<string>)
    requires ReadsBack(parse, write, events) && forall e <- events :: OneLine(kind(e))
    requires Concat(pieces) == Glue(WireLines(kind, write, events))
    ensures var usage := MergeAll(NoUsage, Partials(parse, Lines(Concat(pieces))));
            usage.counts == Metered(events) && usage.model == FirstModel(events)
  {
    var lines := WireLines(kind, write, events);
    WireLinesAreLines(kind, write, events);
    LinesUnique(lines, "");
    assert Glue(lines) + "" == Glue(lines);
    WireReports(parse, kind, write, events);
    ModelOfEvents(NoUsage, events);
  }
}
