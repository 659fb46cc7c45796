/**
 The streaming branch of the messages handler (routes/messages/handler.ts): forwarding
 an upstream stream event by event, and the clean-up events written when it breaks off.
 */
module StreamHandler {
  import opened Common
  import opened StreamEvents
  import opened StreamTranslation
  import opened StreamGrammar
  import opened Aggregation

  /** What the upstream call gives: an exception, a body that is no stream, or events that may break off. */
  datatype Upstream =
    | Refused(message: string)
    | NotStreaming
    | Streaming(events: seq<RawEvent>, breaksOff: Option<string>)

  /** The chunks forwarded: the end marker stops the loop, unreadable events are skipped. */
  function Delivered(events: seq<RawEvent>): seq<Chunk> {
    if events == [] || events[0].Done? then []
    else (if events[0].Data? then [events[0].chunk] else []) + Delivered(events[1..])
  }

  function WithModel(model: string, chunks: seq<Chunk>): seq<Chunk> {
    if chunks == [] then [] else [chunks[0].(model := model)] + WithModel(model, chunks[1..])
  }

  function CleanupEvents(s: State, message: string): seq<Event> {
    (if s.open then [BlockStop(s.index)] else [])
    + (if s.started then [MessageDelta(Some(EndTurn), NoUsage), MessageStop] else [])
    + [ErrorEvent(message)]
  }

  /** All the events a client is sent for one request. */
  function Sent(upstream: Upstream, clientModel: string): seq<Event> {
    match upstream
    case Refused(message) => CleanupEvents(Initial, message)
    case NotStreaming => CleanupEvents(Initial, "Expected streaming response from Copilot")
    case Streaming(events, breaksOff) =>
      var run := Run(Initial, WithModel(clientModel, Delivered(events)));
      if breaksOff.Some? && Done !in events then run.events + CleanupEvents(run.state, breaksOff.value) else run.events
  }

  class ClientStream {
    const streamState: AnthropicStreamState
    var written: seq<Event>

    constructor ()
      ensures fresh(streamState) && streamState.View() == Initial && written == []
    {
      streamState := new AnthropicStreamState();
      written := [];
    }

    /** Forward one chunk; the client's model name goes into the chunk that starts the message. */
    method ForwardChunk(parsed: Chunk, clientModel: string)
      modifies this, streamState
      ensures var step := ChunkStep(old(streamState.View()), parsed.(model := clientModel));
              written == old(written) + step.events && streamState.View() == step.state
    {
      var chunk := parsed;
      ModelMattersOnce(streamState.View(), chunk, clientModel);
      if !streamState.messageStartSent {
        chunk := chunk.(model := clientModel);
      }
      var more := streamState.Translate(chunk);
      written := written + more;
    }

    /** `forwardChatCompletionStream`; `ended` tells whether the end marker was seen. */
    method Forward(events: seq<RawEvent>, clientModel: string) returns (ended: bool)
      modifies this, streamState
      ensures ended == (Done in events)
      ensures var run := Run(old(streamState.View()), WithModel(clientModel, Delivered(events)));
              written == old(written) + run.events && streamState.View() == run.state
    {
      ghost var left := WithModel(clientModel, Delivered(events));
      ghost var all := Run(streamState.View(), left);
      ended := false;
      for k := 0 to |events|
        invariant !ended && Done !in events[..k]
        invariant left == WithModel(clientModel, Delivered(events[k..]))
        invariant written + Run(streamState.View(), left).events == old(written) + all.events
        invariant Run(streamState.View(), left).state == all.state
      {
        DeliveredHead(events, k, clientModel);
        if events[k].Done? {
          ended := true;
          return;
        }
        if events[k].Data? {
          RunHead(streamState.View(), left, written);
          ForwardChunk(events[k].chunk, clientModel);
          left := left[1..];
        }
      }
    }

    /** `closeOpenContentBlock`, `closeStartedMessage` and the error event; the state is left as it was. */
    method EmitErrorCleanup(message: string)
      modifies this
      ensures written == old(written) + CleanupEvents(streamState.View(), message)
    {
      if streamState.contentBlockOpen {
        written := written + [BlockStop(streamState.contentBlockIndex)];
      }
      if streamState.messageStartSent {
        written := written + [MessageDelta(Some(EndTurn), NoUsage)];
        written := written + [MessageStop];
      }
      written := written + [ErrorEvent(message)];
    }
  }

  method HandleStreaming(upstream: Upstream, clientModel: string) returns (sent: seq<Event>)
    ensures sent == Sent(upstream, clientModel)
  {
    var stream := new ClientStream();
    if upstream.Refused? {
      stream.EmitErrorCleanup(upstream.message);
    } else if upstream.NotStreaming? {
      stream.EmitErrorCleanup("Expected streaming response from Copilot");
    } else {
      var ended := stream.Forward(upstream.events, clientModel);
      ghost var run := Run(Initial, WithModel(clientModel, Delivered(upstream.events)));
      assert stream.written == run.events;
      if upstream.breaksOff.Some? && !ended {
        stream.EmitErrorCleanup(upstream.breaksOff.value);
      }
    }
    sent := stream.written;
  }

  lemma DeliveredHead(events: seq<RawEvent>, k: nat, model: string)
    requires k < |events|
    ensures var now, next := WithModel(model, Delivered(events[k..])), WithModel(model, Delivered(events[k + 1..]));
            now == if events[k].Done? then []
                   else if events[k].Data? then [events[k].chunk.(model := model)] + next
                   else next
  {
    assert events[k..][0] == events[k] && events[k..][1..] == events[k + 1..];
    if events[k].Data? {
      var rest := Delivered(events[k + 1..]);
      assert Delivered(events[k..]) == [events[k].chunk] + rest;
      assert ([events[k].chunk] + rest)[1..] == rest;
    } else if !events[k].Done? {
      assert Delivered(events[k..]) == Delivered(events[k + 1..]);
    }
  }

  lemma RunHead(s: State, chunks: seq<Chunk>, soFar: seq<Event>)
    requires chunks != []
    ensures var head := ChunkStep(s, chunks[0]);
            && Run(s, chunks).state == Run(head.state, chunks[1..]).state
            && soFar + Run(s, chunks).events == soFar + head.events + Run(head.state, chunks[1..]).events
  {
    var head := ChunkStep(s, chunks[0]);
    Associative(soFar, head.events, Run(head.state, chunks[1..]).events);
  }

  /** Only the chunk that starts the message has its model read. */
  lemma ModelMattersOnce(s: State, chunk: Chunk, model: string)
    ensures s.started ==> ChunkStep(s, chunk.(model := model)) == ChunkStep(s, chunk)
  {
  }

  // ----- the clean-up closes every prefix -----

  function WatchRun(w: Watch, chunks: seq<Chunk>): Watch
    decreases |chunks|
  {
    if chunks == [] || w.finished then w else WatchRun(WatchChunk(w, chunks[0]), chunks[1..])
  }

  predicate SomeFinishes(chunks: seq<Chunk>) {
    exists ch <- chunks :: Finishes(ch)
  }

  lemma {:induction false} RunStaysInStep(s: State, c: Client, w: Watch, chunks: seq<Chunk>)
    requires InStep(s, c, w) && Orderly(false, w, chunks)
    ensures InStep(Run(s, chunks).state, AfterRun(c, s, w, chunks), WatchRun(w, chunks))
    ensures WatchRun(w, chunks).finished == (w.finished || SomeFinishes(chunks))
    decreases |chunks|
  {
    if chunks != [] {
      var chunk := chunks[0];
      assert chunks == [chunk] + chunks[1..];
      WatchFinishes(w, chunk);
      if w.finished {
        FinishedChunk(false, s, c, w, chunk);
        RunStaysInStep(s, c, w, chunks[1..]);
      } else {
        ChunkReplays(false, s, c, w, chunk);
        RunStaysInStep(ChunkStep(s, chunk).state, AfterChunk(c, s, chunk), WatchChunk(w, chunk), chunks[1..]);
      }
    }
  }

  lemma {:induction false} LenientOrder(w: Watch, chunks: seq<Chunk>)
    requires Orderly(true, w, chunks)
    ensures Orderly(false, w, chunks)
    decreases |chunks|
  {
    if chunks != [] {
      LenientOrder(if w.finished then w else WatchChunk(w, chunks[0]), chunks[1..]);
    }
  }

  /**
   After any acceptable prefix of a stream, the clean-up events give a stream the client
   accepts if and only if no chunk had finished the message; every block is then closed,
   nothing read so far is lost, a started message is ended, and the error comes last.
   A second end of a finished message is what makes the other case fail.
   */
  lemma CleanupClosesEveryPrefix(strict: bool, chunks: seq<Chunk>, message: string)
    requires Orderly(strict, Unseen, chunks)
    ensures var run := Run(Initial, chunks);
            var read := Replay(strict, Fresh, run.events);
            var after := Replay(strict, Fresh, run.events + CleanupEvents(run.state, message));
            && read.Some?
            && (after.Some? <==> !SomeFinishes(chunks))
            && (after.Some? ==>
                  var before := read.value;
                  && after.value.phase == Errored && !after.value.open
                  && after.value.blocks == before.blocks && after.value.model == before.model
                  && after.value.stopReason == (if run.state.started then Some(EndTurn) else before.stopReason))
    ensures var s := Run(Initial, chunks).state;
            && CleanupEvents(s, message)[|CleanupEvents(s, message)| - 1] == ErrorEvent(message)
            && (!s.started && !SomeFinishes(chunks) ==> CleanupEvents(s, message) == [ErrorEvent(message)])
  {
    StreamIsWellFormed(strict, chunks);
    if strict { LenientOrder(Unseen, chunks); }
    RunStaysInStep(Initial, Fresh, Unseen, chunks);
    var run := Run(Initial, chunks);
    var c := AfterRun(Fresh, Initial, Unseen, chunks);
    ReplayConcat(strict, Fresh, run.events, CleanupEvents(run.state, message));
    CleanupReplays(strict, run.state, c, message);
  }

  lemma CleanupReplays(strict: bool, s: State, c: Client, message: string)
    ensures Mirrors(s, c) ==>
              Replay(strict, c, CleanupEvents(s, message))
              == Some(if s.started then c.(open := false, phase := Errored, stopReason := Some(EndTurn), finalUsage := NoUsage)
                      else c.(phase := Errored))
    ensures s.started && !s.open && c.phase == Ended ==> Replay(strict, c, CleanupEvents(s, message)) == None
  {
    var stop := if s.open then [BlockStop(s.index)] else [];
    var close := if s.started then [MessageDelta(Some(EndTurn), NoUsage), MessageStop] else [];
    ReplayConcat(strict, c, stop + close, [ErrorEvent(message)]);
    ReplayConcat(strict, c, stop, close);
    if Mirrors(s, c) {
      if s.open { ReplayOne(strict, c, stop[0]); } else { assert c == c.(open := false); }
      if s.started { ReplayTwo(strict, c.(open := false), close[0], close[1]); }
    }
  }

  /** The chunks of a stream are orderly, and if it breaks off no finish chunk came before. */
  predicate SoundUpstream(strict: bool, upstream: Upstream, clientModel: string) {
    upstream.Streaming? ==>
      var chunks := WithModel(clientModel, Delivered(upstream.events));
      && Orderly(strict, Unseen, chunks)
      && (upstream.breaksOff.Some? && Done !in upstream.events ==> !SomeFinishes(chunks))
  }

  /** Everything sent for a request is acceptable if and only if the upstream was sound. */
  lemma SentIsAccepted(strict: bool, upstream: Upstream, clientModel: string)
    ensures var read := Replay(strict, Fresh, Sent(upstream, clientModel));
            && (read.Some? <==> SoundUpstream(strict, upstream, clientModel))
            && (read.Some? ==>
                  && (read.value.phase in {Ended, Errored} ==> !read.value.open)
                  && (upstream.Streaming? && Run(Initial, WithModel(clientModel, Delivered(upstream.events))).state.started
                      ==> read.value.model == clientModel))
  {
    match upstream
    case Refused(message) =>
    case NotStreaming =>
    case Streaming(events, breaksOff) =>
      var chunks := WithModel(clientModel, Delivered(events));
      var run := Run(Initial, chunks);
      StreamIsWellFormed(strict, chunks);
      if Orderly(strict, Unseen, chunks) {
        WithModelModels(clientModel, Delivered(events));
        if strict { LenientOrder(Unseen, chunks); }
        RunStaysInStep(Initial, Fresh, Unseen, chunks);
        ModelIsKept(Initial, Fresh, Unseen, chunks, clientModel);
      }
      if breaksOff.Some? && Done !in events {
        ReplayConcat(strict, Fresh, run.events, CleanupEvents(run.state, breaksOff.value));
        if Orderly(strict, Unseen, chunks) { CleanupClosesEveryPrefix(strict, chunks, breaksOff.value); }
      }
  }

  lemma {:induction false} WithModelModels(model: string, chunks: seq<Chunk>)
    ensures forall ch <- WithModel(model, chunks) :: ch.model == model
  {
    if chunks != [] { WithModelModels(model, chunks[1..]); }
  }

  lemma {:induction false} ModelIsKept(s: State, c: Client, w: Watch, chunks: seq<Chunk>, model: string)
    requires forall ch <- chunks :: ch.model == model
    requires InStep(s, c, w) && (c.phase == Waiting || c.model == model)
    ensures AfterRun(c, s, w, chunks).phase == Waiting || AfterRun(c, s, w, chunks).model == model
    decreases |chunks|
  {
    if chunks != [] && !w.finished {
      assert chunks[0] in chunks;
      ChunkReplays(false, s, c, w, chunks[0]);
      WatchFinishes(w, chunks[0]);
      ModelIsKept(ChunkStep(s, chunks[0]).state, AfterChunk(c, s, chunks[0]), WatchChunk(w, chunks[0]), chunks[1..], model);
    }
  }

  /** A stream that breaks off after its finish chunk gets a second end, which no client takes. */
  lemma CleanupAfterFinishIsRejected(id: string, model: string, text: string, message: string)
    ensures var chunks := [Chunk(id, model, None, [Choice(text, [], Some(Stop))])];
            var run := Run(Initial, chunks);
            && Replay(true, Fresh, run.events).Some?
            && Replay(false, Fresh, run.events + CleanupEvents(run.state, message)).None?
  {
    var chunk := Chunk(id, model, None, [Choice(text, [], Some(Stop))]);
    assert [chunk][1..] == [];
    assert Finishes(chunk) && chunk in [chunk];
    assert Orderly(true, Unseen, [chunk]) && Orderly(false, Unseen, [chunk]);
    CleanupClosesEveryPrefix(true, [chunk], message);
    CleanupClosesEveryPrefix(false, [chunk], message);
  }

  // ----- failures are reported -----

  /** What went wrong, if anything did: the call was refused, gave no stream, or the stream broke off before its end marker. */
  function Failure(upstream: Upstream): Option<string> {
    match upstream
    case Refused(message) => Some(message)
    case NotStreaming => Some("Expected streaming response from Copilot")
    case Streaming(events, breaksOff) => if Done in events then None else breaksOff
  }

  lemma {:induction false} RunHasNoErrors(s: State, chunks: seq<Chunk>)
    ensures NoErrors(Run(s, chunks).events)
    decreases |chunks|
  {
    if chunks != [] {
      NoErrorEvents(s, chunks[0]);
      RunHasNoErrors(ChunkStep(s, chunks[0]).state, chunks[1..]);
      NoErrorsConcat(ChunkStep(s, chunks[0]).events, Run(ChunkStep(s, chunks[0]).state, chunks[1..]).events);
    }
  }

  lemma CleanupEndsWithError(s: State, message: string)
    ensures var events := CleanupEvents(s, message);
            && events != [] && events[|events| - 1] == ErrorEvent(message)
            && NoErrors(events[..|events| - 1])
  {
    var events := CleanupEvents(s, message);
    var before := (if s.open then [BlockStop(s.index)] else [])
                  + (if s.started then [MessageDelta(Some(EndTurn), NoUsage), MessageStop] else []);
    assert events == before + [ErrorEvent(message)] && events[..|events| - 1] == before;
  }

  /**
   A failing upstream is reported, and nothing else is: the client is sent an error event if
   and only if something went wrong, exactly one, as the last event, with that failure's
   message. A refused call and a body that is no stream give that event alone.
   */
  lemma FailureIsReported(upstream: Upstream, clientModel: string)
    ensures var events := Sent(upstream, clientModel);
            && (match Failure(upstream)
                case None => NoErrors(events)
                case Some(message) =>
                  && events != [] && events[|events| - 1] == ErrorEvent(message)
                  && NoErrors(events[..|events| - 1]))
            && (upstream.Refused? ==> events == [ErrorEvent(upstream.message)])
            && (upstream.NotStreaming? ==> events == [ErrorEvent("Expected streaming response from Copilot")])
  {
    if upstream.Streaming? {
      var run := Run(Initial, WithModel(clientModel, Delivered(upstream.events)));
      RunHasNoErrors(Initial, WithModel(clientModel, Delivered(upstream.events)));
      if Failure(upstream).Some? {
        var tail := CleanupEvents(run.state, upstream.breaksOff.value);
        var events := run.events + tail;
        CleanupEndsWithError(run.state, upstream.breaksOff.value);
        assert events[..|events| - 1] == run.events + tail[..|tail| - 1];
        NoErrorsConcat(run.events, tail[..|tail| - 1]);
      }
    }
  }

  /** A client that takes the stream ends in the error phase if and only if there was a failure. */
  lemma ClientLearnsOfFailure(strict: bool, upstream: Upstream, clientModel: string)
    ensures var read := Replay(strict, Fresh, Sent(upstream, clientModel));
            read.Some? ==> (read.value.phase == Errored <==> Failure(upstream).Some?)
  {
    var events := Sent(upstream, clientModel);
    FailureIsReported(upstream, clientModel);
    match Failure(upstream)
    case None => NoErrorsNoErrorPhase(strict, Fresh, events);
    case Some(message) =>
      var init := events[..|events| - 1];
      assert events == init + [ErrorEvent(message)];
      ReplayConcat(strict, Fresh, init, [ErrorEvent(message)]);
      if Replay(strict, Fresh, init).Some? { ReplayOne(strict, Replay(strict, Fresh, init).value, ErrorEvent(message)); }
  }

  lemma {:induction false} NoErrorsNoErrorPhase(strict: bool, c: Client, events: seq<Event>)
    requires NoErrors(events) && c.phase != Errored
    ensures var read := Replay(strict, c, events); read.Some? ==> read.value.phase != Errored
    decreases |events|
  {
    if events != [] && Read(strict, c, events[0]).Some? {
      assert events[0] in events;
      NoErrorsNoErrorPhase(strict, Read(strict, c, events[0]).value, events[1..]);
    }
  }

  // ----- which chunks are delivered -----

  predicate IsData(e: RawEvent) { e.Data? }

  lemma ChunksHead(events: seq<RawEvent>, model: string)
    requires events != [] && !events[0].Done?
    ensures WithModel(model, Delivered(events))
            == (if events[0].Data? then [events[0].chunk.(model := model)] else []) + WithModel(model, Delivered(events[1..]))
  {
    DeliveredHead(events, 0, model);
    assert events[0..] == events;
  }

  lemma NoMarkerYet(events: seq<RawEvent>, n: nat)
    requires n < |events| && !events[0].Done? && Done !in events[1..][..n]
    ensures Done !in events[..n + 1] && events[..n + 1][1..] == events[1..][..n]
  {
    assert events[..n + 1] == [events[0]] + events[1..][..n];
  }

  /** The event's chunk under the client's model name. */
  function ForwardedAs(model: string): (RawEvent, Chunk) -> bool {
    (e: RawEvent, chunk: Chunk) => e.Data? && chunk == e.chunk.(model := model)
  }

  /** Forwarded are exactly the readable chunks before the first end marker, in order, under the client's model name. */
  lemma {:induction false} DeliveredExactly(events: seq<RawEvent>, model: string) returns (n: nat)
    ensures n <= |events| && Done !in events[..n] && (n < |events| ==> events[n].Done?)
    ensures Filtered(events[..n], IsData, ForwardedAs(model), WithModel(model, Delivered(events)))
  {
    if events == [] || events[0].Done? {
      n := 0;
      FilteredNone(IsData, ForwardedAs(model));
      assert events[..0] == [];
    } else {
      n := DeliveredExactly(events[1..], model);
      NoMarkerYet(events, n);
      n := n + 1;
      ChunksHead(events, model);
      var head := if events[0].Data? then [events[0].chunk.(model := model)] else [];
      FilteredMore(events[..n], IsData, ForwardedAs(model), head, WithModel(model, Delivered(events[1..])));
    }
  }
}
