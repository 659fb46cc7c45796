# A verified model of the translating proxy

The proxy sits between clients that speak the Anthropic Messages protocol and an upstream that
speaks OpenAI chat completions or OpenAI Responses. It translates requests and answers in both
directions, whole or as event streams, squeezes oversized requests under a byte ceiling, runs a
web-search loop on behalf of the model, caches the upstream token of each tenant and meters the
usage that it reads back from its own answers. This project models that logic in Dafny and proves
properties of it for every input, every run and every interleaving.

How the model is laid out:

| modules | what they model | stated against |
|---|---|---|
| `StreamEvents`, `StreamTranslation`, `StreamGrammar` | the chunk-to-event translator, a class with the mutable stream state | a client that reads events one by one and knows nothing of the translator |
| `Aggregation` | the reader that collects a whole stream into one message | the same client: what streaming shows equals what aggregation collects |
| `StreamHandler` | forwarding, and the cleanup after a broken stream | the same client |
| `JsonValues`, `StringPaths`, `ResponsesItems`, `ResponsesImages`, `ResponsesFit`, `ResponsesFitLaws`, `ResponsesFitCases` | the Responses payload fitter on arbitrary JSON values | serialized length with a cost of 1 to 6 per UTF-16 unit (section 7 of RFC 8259), leaf-by-leaf reading of a value, the rule that every tool output has its call |
| `ContextFit`, `ContextContents`, `ToolPairing`, `TurnContents` | the chat payload fitter, and message translation before it | a full recount of bytes, the rule that a run of tool messages directly follows its announcing assistant message, and what each turn says by position |
| `ChatResponses`, `WebSearchLoop`, `WebSearchLaws`, `WebSearchTexts` | whole chat answers, the web-search loop with upstream and search as arbitrary functions of the call number | a record of the rounds played, and each message and block by position |
| `SyntheticStreams`, `ResponsesBridge`, `BridgeContents` | streams written from whole answers, and the bridge to Responses items | the same client as above; the orphan rule of the fitter; the fields of every item |
| `TenantTokens` | the token cache as interleaved atomic steps | the history of mints and answers |
| `SseLines`, `UsageMetering`, `MeteringRoundTrip` | the metering line parser and the usage arithmetic | the text as a whole; the upstream counts the translators started from |

Code that updates state or loops is a class or a method with a loop, proved equal to a
specification function; the laws are then proved of that function. `StreamTranslation` and
`StreamHandler` (`routes/messages/stream-translation.ts`, `handler.ts`) and `TenantTokens` are
classes. Upstream replies, searches, JSON parsing, hashing and the clock are parameters.

## Findings

Where the code does not do what one would expect, the code is followed, the exact condition is
proved and an input is given:

- A stream is accepted by the client if and only if it is `Orderly`: nothing is written after a
  finish chunk, and (for a client that insists on the open block) argument fragments only follow
  the latest tool start. Fragments for an older tool go to a closed block
  (`StreamGrammar.StreamIsWellFormed`, `StreamGrammar.TextAfterFinishIsRejected`,
  `StreamGrammar.LateArgumentsHitAClosedBlock`).
- Cleanup after a finish chunk is rejected, cleanup before one always closes the stream
  (`StreamHandler.CleanupClosesEveryPrefix`, `StreamHandler.CleanupAfterFinishIsRejected`).
- `slice(-0)` is the whole string, so one content cut either fits with 9,988 characters to spare or
  makes the body exactly 64 characters longer, and its loop never goes round twice
  (`ResponsesFit.OneCutFitsExactly`, `ResponsesFitCases.PlaceholderCutGrows`).
- The last Responses stage keeps as many units as the body exceeds the ceiling, instead of cutting
  that many (create-responses.ts:521-525). A cut of text without escapes fits if and only if the
  string is at least twice the excess and 64 units long, and shrinks the body if and only if it is
  longer than the excess and 64 (`ResponsesFit.PlainPayloadCut`; for all text
  `ResponsesFit.PayloadCutExactly`, `ResponsesFit.LastStageFitsExactly`); it can make a body longer that
  cutting the excess would have made fit (`ResponsesFitCases.LastStageGrows`).
- Fitting a text input never makes it fit: the tail fills the ceiling exactly while the prefix costs
  two more characters than it has units, so the answer fits if and only if the payload did
  (`ResponsesFitLaws.FittedText`); a plain text as long as the ceiling comes out two over it
  (`ResponsesFitCases.PlainTextStaysOver`).
- A payload without orphans comes out with one if and only if its input is minimized and some system or
  developer item is an output whose calls are all in other items, one of which was not dropped before
  (`ResponsesFitLaws.FittedOrphansExactly`, `ResponsesFitCases.MinimizingMakesAnOrphan`).
- Dropping chat messages strands a tool result if and only if the second to last message is a tool
  result and the conversation from the assistant message that announced it onwards is over the
  ceiling (`ToolPairing.DropPairsExactly`; `ToolPairing.StrandingHappens` under every ceiling).
- Pruning, image stripping and capping can make a payload bigger, since a placeholder or suffix may
  outweigh what it replaces; what each reclaims is stated exactly (`ContextFit.PruningReclaimsExactly`,
  `ContextFit.StrippingReclaimsExactly`, `ContextFit.CappingGrowsExactly`, with inputs in
  `ContextFit.PruningCanGrow`, `ContextFit.StrippingCanGrow`, `ContextFit.CappingCanGrow`).
- The search budget is looked at once a round, so a run exceeds it if and only if some round entered
  below it asks for more than is left (`WebSearchLaws.BudgetExceededExactly`), which can happen for
  every positive budget (`WebSearchLaws.BudgetIsExceeded`).
- A tool argument with a number too large for a double reaches the client as null, in a stream as in a
  whole message; every other argument arrives if and only if it survives being written and read
  (`SyntheticStreams.ResponsesStreamReplays`, `SyntheticStreams.OverflowIsReadAsNull`).
- A usage that arrives in a trailing chunk without choices never reaches the meter
  (`MeteringRoundTrip.TrailingUsageIsLost`, `MeteringRoundTrip.UsageAfterFinishIsLost`).
- proxy/README.md gives 2.5 MB as the ceiling for context fitting; the code uses 5,000,000 and 1,900,000, and so does the model.

## Model

| member | source | states |
|---|---|---|
| StreamTranslation.AnthropicStreamState.Translate | proxy/src/routes/messages/stream-translation.ts:20-180 | One chunk through the mutable translator gives exactly the events and the new state of the specification step, for every state; `StreamGrammar` says what a client reads in those events. |
| StreamTranslation.AnthropicStreamState.EmitFragments | proxy/src/routes/messages/stream-translation.ts:93-143 | The loop over tool fragments: announcing closes the open block and opens the next, arguments go to the block recorded for their index, unknown indices are skipped. |
| StreamTranslation.AnthropicStreamState.EmitFinish | proxy/src/routes/messages/stream-translation.ts:145-177 | A finish reason closes the open block and writes the closing delta, with uncached input tokens, and the stop event. |
| StreamGrammar.ToolBlockOpenIsExact | proxy/src/routes/messages/stream-translation.ts:9-18 | The check for an open tool block is true exactly when the block the client has open is a tool block. |
| StreamGrammar.TextReplays | proxy/src/routes/messages/stream-translation.ts:60-91 | Text reaches the client's open text block, or a new one after the open tool block was closed. |
| StreamGrammar.FragmentReplays | proxy/src/routes/messages/stream-translation.ts:93-143 | A fragment's events are accepted (by the strict client: if and only if it is in turn) and do to the client's blocks what the fragment asks, at the right index. |
| StreamGrammar.FinishReplays | proxy/src/routes/messages/stream-translation.ts:145-177 | A finish reason closes the open block, whatever it is, and ends the client's message with the mapped stop reason and the final usage. |
| StreamGrammar.ChunkReplays | proxy/src/routes/messages/stream-translation.ts:20-180 | From every mirrored state a whole chunk is accepted if and only if its fragments are in turn, leaves the client in the stated state and keeps the mirror. |
| StreamGrammar.SilentChunk | proxy/src/routes/messages/stream-translation.ts:60-143 | After the finish, exactly the silent chunks write nothing. |
| StreamGrammar.RunReplays | proxy/src/routes/messages/stream-translation.ts:20-180 | From any state in step with the client, a run of chunks is accepted if and only if it is orderly, and then leaves the stated client. |
| StreamGrammar.StreamIsWellFormed | proxy/src/routes/messages/stream-translation.ts:20-180 | From a fresh state, for every chunk sequence: the events are accepted if and only if the chunks are orderly; blocks are started and stopped with indices 0,1,2,…; the message has ended, with no block open, if and only if some chunk finished it. |
| StreamGrammar.MessageStartsAs | proxy/src/routes/messages/stream-translation.ts:33-58 | The client's message has the id, model and input usage of the first chunk with a choice, with cached tokens counted apart and zeros without a usage. |
| StreamGrammar.MessageEndsAs | proxy/src/routes/messages/stream-translation.ts:145-177 | It ends with the usage of the first chunk that finishes it, and with end turn for stop, max tokens for length, tool use for tool calls and refusal for a content filter. |
| StreamGrammar.QuietTailIsOrderly | proxy/src/routes/messages/stream-translation.ts:26-28 | Streams with no choice after a finish chunk are orderly for a client that accepts arguments to closed tool blocks. |
| StreamGrammar.LateArgumentsHitAClosedBlock | proxy/src/routes/messages/stream-translation.ts:127-140 | A stream of two announced tools and arguments for the first, which only a client that accepts closed tool blocks takes. |
| StreamGrammar.TextAfterFinishIsRejected | proxy/src/routes/messages/stream-translation.ts:60-91 | A stream of a finish chunk, which every client takes, and a chunk with text, which none takes after it. |
| StreamEvents.AcceptedNumbers | proxy/README.md:56 | Whatever stream the client accepts starts and stops its blocks with consecutive indices, each once. |
| StreamEvents.StrictImpliesLenient | proxy/README.md:56 | What the strict client accepts, the lenient client reads in the same way. |
| Aggregation.AggregateStream | proxy/src/routes/messages/web-search-handler.ts:327-399 | The aggregating loop, which skips end markers and unreadable events, returns the reply gathered from all chunks received. |
| Aggregation.ReceivedExactly | proxy/src/routes/messages/web-search-handler.ts:342-351 | The aggregator reads exactly the readable events, in order, on whichever side of an end marker they stand. |
| Aggregation.AggregateExactly | proxy/src/routes/messages/web-search-handler.ts:352-370 | The aggregate's text is that of all chunks, one after the other; its id, model, usage and finish reason are those of the last chunk that has one, with or without a choice. |
| Aggregation.AggregateCallsExactly | proxy/src/routes/messages/web-search-handler.ts:359-369 | For any chunks, the calls stand in the order in which their indices first appear; each has the last id and the last name of its index and all of its argument text, in order. |
| Aggregation.ReplyExactly | proxy/src/routes/messages/web-search-handler.ts:372-398 | The reply made of the aggregate has that text, or none if it is empty, those calls and those settings. |
| Aggregation.CollectFragments | proxy/src/routes/messages/web-search-handler.ts:359-369 | The inner loop over tool fragments gathers ids, names and argument text by index, in order of first appearance. |
| Aggregation.FragmentsAgree | proxy/src/routes/messages/web-search-handler.ts:359-369 | The same fragments change the streaming client's tool blocks and the aggregated calls in the same way, also when they target an older tool. |
| Aggregation.RunAgrees | proxy/src/routes/messages/web-search-handler.ts:342-370 | Agreement of text, calls and stop reason is kept over any run of chunks. |
| Aggregation.StreamingRefinesAggregation | proxy/src/routes/messages/web-search-handler.ts:327-399 | For every orderly stream whose tools are each announced once, the replayed events give the same text, the same tools in the same order with the same argument strings and the same stop reason as aggregation. |
| StreamHandler.ClientStream.ForwardChunk | proxy/src/routes/messages/handler.ts:355-366 | A forwarded chunk appends exactly the translator's events, under the client's model name. |
| StreamHandler.ClientStream.Forward | proxy/src/routes/messages/handler.ts:342-367 | Forwarding stops at the end marker, skips empty and unreadable data and appends the events of the chunks before it. |
| StreamHandler.ClientStream.EmitErrorCleanup | proxy/src/routes/messages/handler.ts:384-404 | Cleanup appends the closing events, if there are any, and one error event. |
| StreamHandler.HandleStreaming | proxy/src/routes/messages/handler.ts:293-325 | Everything the client is sent, for every upstream stream, failure and breaking point, is the stream that `StreamHandler.FailureIsReported`, `StreamHandler.DeliveredExactly` and `StreamHandler.SentIsAccepted` describe. |
| StreamHandler.CleanupReplays | proxy/src/routes/messages/handler.ts:448-481 | Cleanup closes the open block, ends a started message and reports the error; after an ended message it is rejected. |
| StreamHandler.CleanupClosesEveryPrefix | proxy/src/routes/messages/handler.ts:384-404 | After every orderly prefix the cleanup is accepted if and only if no chunk finished the message; it closes every block, keeps the content, and is the error event alone when nothing had started. |
| StreamHandler.CleanupAfterFinishIsRejected | proxy/src/routes/messages/handler.ts:463-481 | A stream of one finish chunk, which every client takes, and whose cleanup no client takes. |
| StreamHandler.SentIsAccepted | proxy/src/routes/messages/handler.ts:293-325 | Whatever is sent for a request is accepted if and only if the delivered chunks are orderly and a stream that breaks off had not finished; the client then has no block open at the end and saw the model it asked for. |
| StreamHandler.FailureIsReported | proxy/src/routes/messages/handler.ts:293-404 | An error event is sent if and only if the call was refused, gave no stream or broke off before the end marker: exactly one, the last event, with that failure's message. A refusal or a body that is no stream gives that event alone. |
| StreamHandler.ClientLearnsOfFailure | proxy/src/routes/messages/handler.ts:384-404 | A client that takes the stream ends in the error phase if and only if there was a failure. |
| StreamHandler.DeliveredExactly | proxy/src/routes/messages/handler.ts:342-367 | What is forwarded are exactly the readable chunks before the first end marker, in order, under the client's model name. |
| StreamHandler.ModelIsKept | proxy/src/routes/messages/handler.ts:358 | The client's model name is the one the message was started with. |
| JsonValues.EscapedLengthSplit | proxy/src/services/copilot/create-responses.ts:457-465 | Splitting a string changes its escaped length only when it splits a surrogate pair, and then by at most 10. |
| JsonValues.SetLength | proxy/src/services/copilot/create-responses.ts:414-417 | Replacing one field changes the serialized length by the difference of the two values. |
| JsonValues.GetSet | proxy/src/services/copilot/create-responses.ts:475-480 | A spread copy with one key overridden reads the new value at that key and the old ones elsewhere. |
| StringPaths.SearchFindsFirstLongest | proxy/src/services/copilot/create-responses.ts:425-455 | On every JSON value the search returns null if and only if no string may be cut, and otherwise the path of the first, in traversal order, of the longest strings not under a preserved key. |
| StringPaths.TruncateReaches | proxy/src/services/copilot/create-responses.ts:457-483 | At the path given, the string becomes the prefix and the kept tail. |
| StringPaths.TruncateTouchesOneLeaf | proxy/src/services/copilot/create-responses.ts:457-483 | At every other path, existing or not, the value reads as before; along the path the shape is kept. |
| StringPaths.TruncateKeepsWf | proxy/src/services/copilot/create-responses.ts:457-483 | A cut keeps the value well formed and of the same shape, at any path. |
| StringPaths.PreservedStringsSurvive | proxy/src/services/copilot/create-responses.ts:29-39 | Cutting the string that the search found leaves every string under a preserved key as it was. |
| StringPaths.TruncateLength | proxy/src/services/copilot/create-responses.ts:457-483 | The serialized length changes by exactly the escaped lengths of the old and the new string. |
| StringPaths.PrefixLength | proxy/src/services/copilot/create-responses.ts:27-28 | The truncation prefix has 62 units and its two newlines cost two more, whatever follows. |
| ResponsesItems.DroppedIsPlain | proxy/src/services/copilot/create-responses.ts:293-298 | A dropped item is a plain turn: neither protected, nor a call, nor an output. |
| ResponsesItems.DroppedReads | proxy/src/services/copilot/create-responses.ts:293-298 | A dropped item stays an assistant's if it was one and is a user's otherwise; its content is the placeholder and it has no other field. |
| ResponsesItems.ProtectedExactly | proxy/src/services/copilot/create-responses.ts:493-495 | The protected items are exactly the system and developer items, in order. |
| ResponsesItems.CallIsNoOutput | proxy/src/services/copilot/create-responses.ts:331-337 | No item type is both a call and a call output. |
| ResponsesItems.OrphanPassLeavesNone | proxy/src/services/copilot/create-responses.ts:300-329 | After the pass every tool output with a call id has its call, whatever the items were. |
| ResponsesItems.OrphanPassIsExact | proxy/src/services/copilot/create-responses.ts:300-329 | The pass changes nothing if and only if there was no orphan. |
| ResponsesItems.OrphanPassIsIdempotent | proxy/src/services/copilot/create-responses.ts:300-329 | A second pass changes nothing. |
| ResponsesItems.OrphanPassKeepsProtected | proxy/src/services/copilot/create-responses.ts:300-329 | System and developer items that hold no orphan survive it unchanged. |
| ResponsesItems.DropOneMore | proxy/src/services/copilot/create-responses.ts:279-288 | Replacing the next unprotected item is dropping one more from the front. |
| ResponsesItems.DropFirstKeepsProtected | proxy/src/services/copilot/create-responses.ts:279-288 | Dropping keeps the number of items and every protected item, in order. |
| ResponsesItems.LastTwoSurvive | proxy/src/services/copilot/create-responses.ts:282 | The last two unprotected items are never replaced. |
| ResponsesItems.RewritesNoOrphans | proxy/src/services/copilot/create-responses.ts:331-337 | Rewriting items without touching type, call id and role neither makes nor removes an orphan. |
| ResponsesImages.CollectImageLocations | proxy/src/services/copilot/create-responses.ts:230-246 | The nested loops list the image parts as the specification does. |
| ResponsesImages.LocationsExact | proxy/src/services/copilot/create-responses.ts:230-246 | The list holds exactly the places of image parts, in document order. |
| ResponsesImages.ReplaceOne | proxy/src/services/copilot/create-responses.ts:248-266 | One replacement changes that part and nothing else. |
| ResponsesImages.StripFirstExact | proxy/src/services/copilot/create-responses.ts:141-146 | After `n` replacements exactly the parts at the first `n` locations are placeholders: earlier ones never invalidate later ones. |
| ResponsesImages.StrippedImageReads | proxy/src/services/copilot/create-responses.ts:258-261 | What stands in an image's place is a text part that says the image was removed. |
| ResponsesImages.StrippedLocationsRemain | proxy/src/services/copilot/create-responses.ts:141-146 | Collecting again then gives exactly the remaining locations. |
| ResponsesImages.StripRewrites | proxy/src/services/copilot/create-responses.ts:248-266 | Stripping touches no type, call id or role. |
| ResponsesFit.StringInputOvershoot | proxy/src/services/copilot/create-responses.ts:207-223 | A text that is cut fills the room for its tail, so the body comes out at exactly the ceiling, the prefix's two escapes and those of the tail; a text with no room for a tail, or shorter than the room, is kept whole and the body grows by exactly 64. |
| ResponsesFit.RunStripImages | proxy/src/services/copilot/create-responses.ts:138-146 | The loop with its early exit strips the images that the specification counts. |
| ResponsesFit.StripIsMinimal | proxy/src/services/copilot/create-responses.ts:138-146 | The stripped images are a shortest prefix, in document order, whose removal fits, or all of them. |
| ResponsesFit.CountRecentDroppableItems | proxy/src/services/copilot/create-responses.ts:339-348 | The counting loop counts the unprotected items from an index on. |
| ResponsesFit.RunDropOldInputItems | proxy/src/services/copilot/create-responses.ts:268-291 | The loop over the input, with its skips and its running length, drops what the specification drops, and counts it. |
| ResponsesFit.DropIsMinimal | proxy/src/services/copilot/create-responses.ts:268-291 | The fewest oldest unprotected items are replaced for the body to fit, or all but two; the last two and all protected items stay. |
| ResponsesFit.FindLargestInputString | proxy/src/services/copilot/create-responses.ts:380-396 | The loop over the items finds the location the specification finds. |
| ResponsesFit.LargestInputIsLargest | proxy/src/services/copilot/create-responses.ts:380-396 | That location holds the first of the longest strings that may be cut in unprotected items; there is none if and only if no string may be cut. |
| ResponsesFit.CutInputLength | proxy/src/services/copilot/create-responses.ts:398-418 | A cut of a string longer than excess, prefix and 10,000 together shortens the body by at least the excess and 9,988 more; any other cut grows it by 64. |
| ResponsesFit.OneCutFitsExactly | proxy/src/services/copilot/create-responses.ts:350-372 | One cut makes the body fit if and only if the string is longer than excess, prefix and 10,000 together, for every escaping of every string. |
| ResponsesFit.RunTruncateInputContent | proxy/src/services/copilot/create-responses.ts:350-372 | The loop ends for every payload and ceiling and never makes a second cut. |
| ResponsesFit.RunTruncatePayload | proxy/src/services/copilot/create-responses.ts:512-534 | The loop over the whole payload ends, with the serialized length as its measure. |
| ResponsesFit.PayloadTruncationEnds | proxy/src/services/copilot/create-responses.ts:512-534 | It stops only when the body fits, when no string may be cut, or when the last cut did not shrink the body. |
| ResponsesFit.PayloadCutExactly | proxy/src/services/copilot/create-responses.ts:521-528 | One cut of the last stage fits if and only if the text it removes is at least the excess and the prefix; the loop goes on if and only if it is more than the prefix and not enough; a string no longer than the excess is kept whole and the body grows by 64. |
| ResponsesFit.PlainPayloadCut | proxy/src/services/copilot/create-responses.ts:521-528 | Without escapes: it fits if and only if the string is at least twice the excess and 64 units long, and shrinks if and only if it is longer than the excess and 64. |
| ResponsesFit.LastStageFitsExactly | proxy/src/services/copilot/create-responses.ts:512-534 | The last stage ends with a fitting body if and only if its shrinking cuts lead to a body for which one more cut is enough. |
| ResponsesFit.FitResponsesPayload | proxy/src/services/copilot/create-responses.ts:118-193 | The whole fitter, stage by stage with all its exits, is the specification that the laws below are about. |
| ResponsesFitLaws.MinimizeOrphansExactly | proxy/src/services/copilot/create-responses.ts:485-510 | The minimized input has an orphan if and only if the protected items alone have one. |
| ResponsesFitLaws.MinimizedItems | proxy/src/services/copilot/create-responses.ts:493-509 | Minimized input is the protected items followed by one placeholder: an assistant's if the last of the other items was an assistant's, a user's otherwise. |
| ResponsesFitLaws.TruncatePayloadRewrites | proxy/src/services/copilot/create-responses.ts:512-534 | The last stage keeps the number of items, makes no orphan and keeps every preserved field of the payload. |
| ResponsesFitLaws.FittingCreatesNoOrphan | proxy/src/services/copilot/create-responses.ts:118-193 | If every tool output has its call before, also among protected items alone, every one has after, at every exit. |
| ResponsesFitLaws.FittedOrphansExactly | proxy/src/services/copilot/create-responses.ts:118-193 | A payload without orphans comes out with one if and only if its input is minimized and some protected output's calls are all unprotected and one of them is not among the dropped items; a payload with one keeps it only if the fitter stops at the images or that same condition holds. |
| ResponsesFitLaws.FittedFitsExactly | proxy/src/services/copilot/create-responses.ts:118-193 | The answer fits if and only if minimizing is not reached, the minimized payload fits, or the last stage's cuts come to one that is enough. |
| ResponsesFitLaws.FittedOrLastStage | proxy/src/services/copilot/create-responses.ts:118-193 | The fitter stops with a payload that fits and differs only in its input, or reaches the last stage. |
| ResponsesFitLaws.FittedAnswer | proxy/src/services/copilot/create-responses.ts:118-193 | A payload that fits is returned as it is; otherwise the answer is well formed, everything outside the input is kept until the last stage, and if it still does not fit the last stage was exhausted. |
| ResponsesFitLaws.FittedText | proxy/src/services/copilot/create-responses.ts:127-134 | Fitting a text input changes only the input and never succeeds: the answer fits if and only if the payload did, and its length is given exactly in both other cases. |
| ResponsesFitCases.MinimizingMakesAnOrphan | proxy/src/services/copilot/create-responses.ts:485-510 | Under every ceiling a request without orphans, with instructions longer than the ceiling, a plain call and its output in a system item, comes out with an orphan. |
| ResponsesFitCases.PlainTextStaysOver | proxy/src/services/copilot/create-responses.ts:207-223 | Under every ceiling from 1,000 on, a plain text as long as the ceiling comes out two characters over it. |
| ResponsesFitCases.LastStageGrows | proxy/src/services/copilot/create-responses.ts:521-525 | Under every ceiling from 1,200 on there is a request that the fitter makes 62 characters longer in its last stage although cutting the excess, and keeping the rest, would have made it fit. |
| ResponsesFitCases.PlaceholderCutGrows | proxy/src/services/copilot/create-responses.ts:407-410 | An oversized payload whose only item is the placeholder leaves the content stage with the whole text behind the prefix and 64 characters longer. |
| ContextFit.EstimateMessageBytes | proxy/src/lib/context-manager.ts:240-262 | The accumulating loop over parts and calls computes the message estimate. |
| ContextFit.EstimatePayloadBytes | proxy/src/lib/context-manager.ts:226-238 | The accumulating loop computes the payload estimate. |
| ContextFit.RunPruneToolOutputs | proxy/src/lib/context-manager.ts:264-301 | The walk from the newest message back and the replacing loop replace exactly the tool outputs that come after the protected bytes are spent, and only when they hold enough bytes. |
| ContextFit.PruningHasBoundary | proxy/src/lib/context-manager.ts:272-284 | The tool outputs taken are exactly those before the latest position from which tool messages fill the protected budget. |
| ContextFit.PruningReclaimsExactly | proxy/src/lib/context-manager.ts:286-300 | Pruning changes the payload estimate by exactly the old contents minus their placeholders, and not at all below the minimum. |
| ContextFit.RunStripOldImages | proxy/src/lib/context-manager.ts:303-342 | The loop over the messages before the last four replaces exactly their image parts. |
| ContextFit.StrippingReclaimsExactly | proxy/src/lib/context-manager.ts:303-368 | Stripping images up to a boundary (all but the last four messages, or all) changes the payload estimate by exactly what they weighed more than their placeholders. |
| ContextFit.CappingReclaimsExactly | proxy/src/lib/context-manager.ts:372-396 | Capping changes the payload estimate by exactly what is cut off less the suffixes added. |
| ContextFit.CappingGrowsExactly | proxy/src/lib/context-manager.ts:380-387 | Capping makes the payload bigger if and only if its tool outputs exceed the cap, all together, by less than the suffixes they get. |
| ContextFit.ReducedBytes | proxy/src/lib/context-manager.ts:165-202 | What the stages before dropping leave weighs exactly the payload less what each stage that is reached reclaims. |
| ContextFit.ImagesStayGone | proxy/src/lib/context-manager.ts:185-210 | Once the stage that strips all images is reached, no message of the result holds an image, at any later exit. |
| ContextFit.PruningCanGrow | proxy/src/lib/context-manager.ts:286-293 | A payload that pruning makes bigger by the placeholder's length. |
| ContextFit.StrippingCanGrow | proxy/src/lib/context-manager.ts:344-367 | A payload that stripping images makes bigger. |
| ContextFit.CappingCanGrow | proxy/src/lib/context-manager.ts:380-387 | A payload that capping tool outputs makes bigger. |
| ContextFit.DropOversize | proxy/src/lib/context-manager.ts:418-428 | The shifting loop, which starts from the sum of the message sizes, keeps its running total equal to a full recount and drops what the specification counts. |
| ContextFit.DropStrays | proxy/src/lib/context-manager.ts:437-446 | The second loop drops leading tool messages down to two, with the total still exact. |
| ContextFit.RunDropOldMessages | proxy/src/lib/context-manager.ts:398-464 | The whole stage, with a final total equal to the estimate of its result. |
| ContextFit.OversizeIsFewest | proxy/src/lib/context-manager.ts:422-428 | The first loop drops the fewest messages for the rest to fit, or all but two. |
| ContextFit.StraysAreTools | proxy/src/lib/context-manager.ts:437-446 | The second loop drops only tool messages and stops at a message that is none, or at two. |
| ContextFit.DropKeepsSuffix | proxy/src/lib/context-manager.ts:398-464 | System messages survive in order, the kept conversation is a suffix, and it fits or is down to two messages. |
| ContextFit.FitPayloadToCeiling | proxy/src/lib/context-manager.ts:150-210 | The staged fitter with its exits is the specification that the contract below is about. |
| ContextFit.ReducedKeepsSkeleton | proxy/src/lib/context-manager.ts:165-202 | The stages before dropping keep every message, its role, its calls and its call id. |
| ContextFit.FitContract | proxy/src/lib/context-manager.ts:150-210 | A payload within the ceiling is returned as it is; otherwise the result fits or at most two non-system messages remain; it keeps a suffix of the conversation, all system messages and the tools. |
| ContextFit.FitSucceedsExactly | proxy/src/lib/context-manager.ts:195-209 | Fitting succeeds if and only if what the stages before dropping leave fits, or its system messages, tools and last two conversation messages do. |
| ContextFit.FitOrReject | proxy/src/routes/messages/handler.ts:158-170 | A known model's request is always fitted; an unknown model's is rejected if and only if neither the reduced payload nor its last two conversation messages with the system messages fit, and fitted otherwise. |
| ContextContents.ReducedDegrades | proxy/src/lib/context-manager.ts:165-202 | The stages before dropping leave every message as it was, or with its tool output replaced by the placeholder, some images replaced by theirs, or its tool output cut behind its first 100,000 units and marked as cut. |
| ContextContents.FittedDegrades | proxy/src/lib/context-manager.ts:150-210 | A fitted request keeps every system message and a suffix of the conversation, each message as it was or degraded in one of these ways. |
| ContextContents.CeilingExactly | proxy/src/lib/context-manager.ts:114-124 | The ceiling is 5,000,000 without a known prompt limit, and otherwise 3.5 bytes for each token beyond a reserve of 8,000, rounded down, but at most 5,000,000. |
| ContextContents.EstimatesExactly | proxy/src/lib/context-manager.ts:240-260 | What a message weighs in numbers: 40, its string or parts with 20 for a text and 40 for an image, its calls with 80 each, its call id with 20. |
| ContextContents.PayloadEstimateExactly | proxy/src/lib/context-manager.ts:226-238 | A payload weighs 200, its messages, and its tools with 20 each. |
| ContextContents.SplitExactly | proxy/src/lib/context-manager.ts:402-407 | System messages and conversation are exactly the messages of their roles, in order. |
| ToolPairing.RunHandleUserMessage | proxy/src/routes/messages/non-stream-translation.ts:373-408 | A user turn becomes its tool results, in order, followed by at most one user message with the rest; `TurnContents.UserTurnConveys` says what each of them reads. |
| ToolPairing.RunStripTrailingAssistantPrefill | proxy/src/routes/messages/non-stream-translation.ts:74-90 | Exactly the trailing assistant messages are removed. |
| TurnContents.MapConveys | proxy/src/routes/messages/non-stream-translation.ts:459-502 | A content with an image becomes one part for every text and image, in order, with the text or the data URL; one without becomes its texts, in order, with blank lines between them and nothing else. |
| TurnContents.UserTurnConveys | proxy/src/routes/messages/non-stream-translation.ts:373-408 | Of a user turn nothing is lost, added or moved: one tool message with the content of each result, in order, then one user message with everything else, if there is anything. |
| TurnContents.AssistantTurnConveys | proxy/src/routes/messages/non-stream-translation.ts:410-457 | An assistant turn becomes one message with a call for every tool use, in order with id, name and input, and with all its texts. |
| TurnContents.TranslationConveysHistory | proxy/src/routes/messages/non-stream-translation.ts:327-502 | A translated history is the system prompt followed by the messages of every turn, in order, each saying what its turn says. |
| ToolPairing.PairedMeans | proxy/src/routes/messages/non-stream-translation.ts:327-340 | The pairing rule by position: each tool message follows, through tool messages only, an assistant message that announces its id. |
| ToolPairing.TranslationPairsExactly | proxy/src/routes/messages/non-stream-translation.ts:327-457 | A translated history is paired if and only if its tool results are answered by the uses known at that turn. |
| ToolPairing.ImmediateAnswersSuffice | proxy/src/routes/messages/non-stream-translation.ts:373-457 | Histories whose results answer uses of the immediately preceding turn are answered. |
| ToolPairing.SuffixPairsExactly | proxy/src/lib/context-manager.ts:430-446 | A suffix of a paired conversation is paired if and only if it does not start with a tool message. |
| ToolPairing.DropPairsExactly | proxy/src/lib/context-manager.ts:398-464 | Dropping keeps a paired request paired if and only if it does not strand a result, a condition on sizes and roles alone. |
| ToolPairing.PairingEndToEnd | proxy/src/lib/context-manager.ts:150-210 | For every answered history, translation, prefill stripping and fitting give a paired request if and only if dropping is not reached or does not strand; always when more than two messages remain. |
| ToolPairing.StrandingHappens | proxy/src/lib/context-manager.ts:430-446 | Under every ceiling: the history of one turn with two tool uses, the first input longer than the ceiling, and their two results is answered, and its fitted request starts with an unannounced tool message. |
| ChatResponses.TranslateToAnthropic | proxy/src/routes/messages/non-stream-translation.ts:569-618 | The loop over choices collects all text, from strings and from the text parts of lists, before all tool uses and combines the finish reasons. |
| ChatResponses.ToolUseExactly | proxy/src/routes/messages/non-stream-translation.ts:580-594 | The stop reason is tool use if and only if some choice finished with tool calls, wherever it stands. |
| ChatResponses.AnswerCarriesChoices | proxy/src/routes/messages/non-stream-translation.ts:582-605 | An answer carries the texts of all choices and then their calls, in order, with their ids, names and parsed arguments, under the client's model name. |
| ChatResponses.StopReasonExactly | proxy/src/routes/messages/non-stream-translation.ts:578-594 | The stop reason is missing if and only if there is no choice, end turn if and only if all choices simply stopped, and otherwise, without tool calls, that of the first choice that did not stop. |
| ChatResponses.TextBlocksCarry | proxy/src/routes/messages/non-stream-translation.ts:620-636 | The text blocks of a choice are its string, or the text parts of its list in order. |
| ChatResponses.ToolUseBlocksCarry | proxy/src/routes/messages/non-stream-translation.ts:638-663 | Each call becomes a tool use with its id and name and, when they are an object, its parsed arguments. |
| WebSearchLoop.RunWebSearchLoop | proxy/src/routes/messages/web-search-handler.ts:145-252 | For every upstream and search behaviour the loop ends within 11 upstream calls, gives the specified result, and each call carries the history and tool choice of its round; `WebSearchTexts.EveryHistoryTells` says what stands in that history. |
| WebSearchLoop.PlayRound | proxy/src/routes/messages/web-search-handler.ts:194-248 | One round appends the assistant turn and its answers, the search blocks, the counts and the tool choice of the specification. |
| WebSearchLoop.AnswerCalls | proxy/src/routes/messages/web-search-handler.ts:209-248 | The loop over the round's calls answers each one, by search or by the limit notice, with the texts and blocks that `WebSearchTexts.RoundTells` and `WebSearchTexts.RoundShows` give. |
| WebSearchLaws.EveryCallSeesRounds | proxy/src/routes/messages/web-search-handler.ts:157-249 | At every upstream call the history is the base followed by the rounds so far, and blocks, search count, tokens and tool choice are those of the rounds, each entered under the budget rule. |
| WebSearchLaws.RoundAnswersInOrder | proxy/src/routes/messages/web-search-handler.ts:202-248 | A round is one assistant turn and exactly one tool message per call, in order, with matching ids. |
| WebSearchLaws.EveryHistoryIsPaired | proxy/src/routes/messages/web-search-handler.ts:157-249 | The history stays paired, by the rule of the chat fitter, at every call. |
| WebSearchLaws.RoundsBlocksCoupled | proxy/src/routes/messages/web-search-handler.ts:225-238 | Each search block is immediately followed by its result, and they are as many as the searches. |
| WebSearchLaws.SearchBudget | proxy/src/routes/messages/web-search-handler.ts:209-223 | No search with a budget of zero; otherwise fewer than the budget and the largest round together. |
| WebSearchLaws.BudgetExceededExactly | proxy/src/routes/messages/web-search-handler.ts:209 | A run searches more often than its budget if and only if some round entered below it asks for more searches than are left. |
| WebSearchLaws.BudgetIsExceeded | proxy/src/routes/messages/web-search-handler.ts:209-235 | For every positive budget a model that asks for one search too many in its first reply gets an answer reporting that many. |
| WebSearchLaws.DeniedStaysDenied | proxy/src/routes/messages/web-search-handler.ts:209-223 | Over a run history and blocks only grow; once a round was denied, tool choice stays off and no search follows. |
| WebSearchLaws.AnswerIsConsistent | proxy/src/routes/messages/web-search-handler.ts:190-192 | Every answer has coupled search blocks, as many as it reports, all rounds' output tokens, the latest known input tokens and the client's model; it exceeds the budget if and only if a round overshoots, and then by less than the largest round. |
| WebSearchTexts.EveryHistoryTells | proxy/src/routes/messages/web-search-handler.ts:157-249 | Every history sent upstream, by position: the base messages, then round after round the assistant's turn as written and, for each call, what its own search found. |
| WebSearchTexts.RoundTells | proxy/src/routes/messages/web-search-handler.ts:203-247 | The answer to the i-th call of a searched round is the formatted hits of its search or the search error; in a denied round every answer is the limit note. |
| WebSearchTexts.FinalExactly | proxy/src/routes/messages/web-search-handler.ts:185-192 | The loop goes on exactly when the model asks for searches and for nothing else. |
| WebSearchTexts.RoundShows | proxy/src/routes/messages/web-search-handler.ts:194-238 | A round shows the client the text written in it, unless it is blank, and for each searched call a search block with its query and a result block with the hits. |
| WebSearchTexts.AnswerShows | proxy/src/routes/messages/web-search-handler.ts:254-303 | An answer shows, round by round, what was said and searched, then the final reply's text and calls, under that reply's id. |
| SyntheticStreams.StreamAssembledMessage | proxy/src/routes/messages/web-search-handler.ts:406-481 | The writing loop emits the specified events with running indices. |
| SyntheticStreams.WriteResponsesAsAnthropicStream | proxy/src/routes/messages/responses-bridge.ts:68-112 | The writing loop emits the specified events with running indices. |
| SyntheticStreams.AssembledStreamReplays | proxy/src/routes/messages/web-search-handler.ts:406-481 | The strict client accepts the stream and reads exactly the assembled content, stop reason, and usage with its search count, with indices 0 to n−1. |
| SyntheticStreams.ResponsesStreamReplays | proxy/src/routes/messages/responses-bridge.ts:46-112 | For every JSON library the strict client accepts the stream, with indices 0 to n−1, and reads the whole translation's stop reason, usage and content as anybody reads it who is sent it; it reads the translation's own content if and only if the arguments of every call survive being written and read. |
| SyntheticStreams.WireIsExact | proxy/src/routes/messages/responses-bridge.ts:231-265 | An answer's content is unchanged by being written and read if and only if the arguments of each of its calls survive it. |
| SyntheticStreams.ItemCarried | proxy/src/routes/messages/responses-bridge.ts:231-265 | A named call becomes one tool use with its parsed arguments, a message its non-empty output texts, and any other item nothing. |
| SyntheticStreams.ResponsesMessageExactly | proxy/src/routes/messages/responses-bridge.ts:46-66 | The translated answer has the content of every output item in order, tool use as its stop reason if and only if some item is a named call, and the answer's own id and counts. |
| SyntheticStreams.OverflowIsReadAsNull | proxy/src/routes/messages/responses-bridge.ts:250-265 | A call whose arguments hold a number that is too large: the proxy takes it for infinity and the client reads null. |
| TenantTokens.TokenCache.GetTenantCopilotToken | proxy/src/cpx/tenant-tokens.ts:36-50 | A request takes the cached token, joins the mint in flight or starts one, and records exactly that. |
| TenantTokens.TokenCache.MintCompleted | proxy/src/cpx/tenant-tokens.ts:21-34 | A completed mint caches its token until the early-refresh time; until then it is served (`TenantTokens.CompletedMintIsServed`). |
| TenantTokens.TokenCache.MintFailed | proxy/src/cpx/tenant-tokens.ts:21-34 | A failed mint settles and changes neither map. |
| TenantTokens.TokenCache.RemoveSettled | proxy/src/cpx/tenant-tokens.ts:46 | The deferred removal deletes the entry of the mint's key. |
| TenantTokens.TokenCache.InvalidateTenantCopilotToken | proxy/src/cpx/tenant-tokens.ts:52-54 | Invalidation deletes the cached token and nothing else. |
| TenantTokens.StepKeepsInvariant | proxy/src/cpx/tenant-tokens.ts:15-54 | Every step, in any enabled order, keeps the invariant. |
| TenantTokens.EveryRunIsSafe | proxy/src/cpx/tenant-tokens.ts:15-54 | Over every interleaving: at most one unremoved mint per GitHub token, every caller is answered with a token minted for its own, and a cached one strictly before its expiry. |
| TenantTokens.RemovalIsOwn | proxy/src/cpx/tenant-tokens.ts:46-47 | A settling mint removes its own entry and no other. |
| TenantTokens.MintStartsExactly | proxy/src/cpx/tenant-tokens.ts:36-50 | A request starts a mint if and only if no valid token is cached and none of this token's mints is still in flight. |
| TenantTokens.CompletedMintIsServed | proxy/src/cpx/tenant-tokens.ts:27-40 | Whatever happens after a completion but an invalidation or another completion for its GitHub token, a request is answered from the cache with the minted token, and no mint starts, if and only if less than `refresh_in` seconds less one minute have passed. |
| TenantTokens.FailureLeavesNothing | proxy/src/cpx/tenant-tokens.ts:39-48 | Whatever happens between a failure and the removal of its entry, the failed mint adds nothing to the cache, and the first request after the removal mints again unless a token cached before is still valid. |
| TenantTokens.RemovedIsForgotten | proxy/src/cpx/tenant-tokens.ts:46 | Over every run, nobody is handed a mint after its removal. |
| TenantTokens.InvalidatedUntilMinted | proxy/src/cpx/tenant-tokens.ts:52-54 | After an invalidation nobody is served from the cache until a mint for that token completes. |
| SseLines.LinesGlue | proxy/src/cpx/usage-middleware.ts:244-248 | The lines and the rest, glued with newlines, are the text. |
| SseLines.LinesUnique | proxy/src/cpx/usage-middleware.ts:244-248 | There is no other way to take the text apart. |
| SseLines.LinesConcat | proxy/src/cpx/usage-middleware.ts:239-259 | Reading a text in two pieces, keeping the rest in between, gives the lines of the whole. |
| UsageMetering.DrainBuffer | proxy/src/cpx/usage-middleware.ts:244-259 | The inner loop merges the report of every complete line that counts into the usage, in order, and leaves the rest in the buffer. |
| UsageMetering.MeterStream | proxy/src/cpx/usage-middleware.ts:232-260 | For every way of splitting the text into reads, the usage is the merge of the reports of those lines of the whole text that count. |
| UsageMetering.LineCounts | proxy/src/cpx/usage-middleware.ts:248-258 | A line counts if and only if it is `data:` and data up to white space, the data is not empty, not the end marker and parses to something that reports a usage or model; it then counts for that report. |
| UsageMetering.TrimIs | proxy/src/cpx/usage-middleware.ts:248-251 | Trimming takes the white space off both ends and nothing else. |
| UsageMetering.PartialsExactly | proxy/src/cpx/usage-middleware.ts:254-255 | There is one report for every line that counts, in order. |
| UsageMetering.MergedModelIsFirst | proxy/src/cpx/usage-middleware.ts:130-146 | The model of merged usages is the first one reported. |
| UsageMetering.ShapesNormalize | proxy/src/cpx/usage-middleware.ts:50-128 | The same counts reported in the chat, the Responses and the Anthropic shape, bare or nested, normalize to the same usage. |
| UsageMetering.MergeCountsLaws | proxy/src/cpx/usage-middleware.ts:130-146 | Merging counts is commutative, associative and idempotent, with the empty usage as its unit. |
| UsageMetering.MergeOrderIndependent | proxy/src/cpx/usage-middleware.ts:130-146 | The merged counts depend only on the multiset of partial usages. |
| UsageMetering.MergeKeepsCachedWithinPrompt | proxy/src/cpx/usage-middleware.ts:130-146 | Cached tokens stay within prompt tokens when each partial with the one has the other. |
| MeteringRoundTrip.WholeMessageRoundTrip | proxy/src/routes/messages/non-stream-translation.ts:606-616 | Metering a translated whole message recovers the upstream prompt, cached and completion counts. |
| MeteringRoundTrip.ChunkMetered | proxy/src/routes/messages/stream-translation.ts:44-54 | What the meter reads in one chunk's events, from any translator state. |
| MeteringRoundTrip.AnyRunMetered | proxy/src/routes/messages/stream-translation.ts:44-171 | Any stream, with usage on any chunk, meters to the counts of the chunk that starts the message merged with those of its finish chunks. |
| MeteringRoundTrip.RunMetered | proxy/src/routes/messages/stream-translation.ts:161-171 | The same over a run, from any state: the upstream counts if the message finished, zeros or nothing otherwise. |
| MeteringRoundTrip.StreamRoundTrip | proxy/src/routes/messages/stream-translation.ts:161-171 | Metering a finished streamed run whose usage rides on the finish chunk recovers the upstream counts. |
| MeteringRoundTrip.WrittenStreamMeters | proxy/src/cpx/usage-middleware.ts:232-260 | End to end: events written as `event:` and `data:` lines, in whatever pieces they are read, meter to their merged counts and the model of the first message start. |
| MeteringRoundTrip.TrailingUsageIsLost | proxy/src/routes/messages/stream-translation.ts:26-28 | When no choice-bearing chunk carries usage, the meter reads zeros or nothing. |
| MeteringRoundTrip.UsageAfterFinishIsLost | proxy/src/routes/messages/stream-translation.ts:26-28 | A stream of a finish chunk and any usage on a chunk of its own meters as zero. |
| ResponsesBridge.TranslateUserMessage | proxy/src/routes/messages/responses-bridge.ts:129-154 | The loop over blocks emits outputs and input parts as specified, in order. |
| BridgeContents.UserItemsConvey | proxy/src/routes/messages/responses-bridge.ts:129-179 | A user turn becomes one output item for every tool result, with its call id and text, and one message with everything else; nothing is lost, added or moved. |
| BridgeContents.AssistantItemsConvey | proxy/src/routes/messages/responses-bridge.ts:181-223 | An assistant turn becomes one message with its texts, unless they are empty, and one call item for every tool use with its id, name and arguments, in order. |
| BridgeContents.BridgeConveysHistory | proxy/src/routes/messages/responses-bridge.ts:122-229 | The bridged input is the items of every turn in order, each carrying what its turn says. |
| ResponsesBridge.BridgeHasNoOrphans | proxy/src/routes/messages/responses-bridge.ts:122-179 | The items bridged from an answered history hold no orphan and no protected item. |
| ResponsesBridge.BridgedRequestKeepsCalls | proxy/src/routes/messages/responses-bridge.ts:24-44 | Bridging and then fitting such a history leaves every tool output with its call. |

## Left out

- HTTP, SSE transport, ping timers, routing, logging and request tracing: upstream streams, failures and searches are parameters.
- The SQLite store and what is persisted of a metered usage; encryption; `hashApiKey` is an arbitrary injective function.
- PDF extraction, tokenizers, URL checks, regular expressions and text decoding.
- JSON text: values with the length of their serialization stand for it, and the library that writes and parses it is an arbitrary pair of functions.
- StringPaths.SearchFindsFirstLongest: requires distinct keys in every object, which JavaScript objects have; object keys are Dafny strings without lone surrogates.
- ToolPairing.PairingEndToEnd: system text is taken as already sanitised, so the reserved-keyword patterns are not modelled.
- ResponsesItems.OrphanPassLeavesNone: a call id that is not a string counts as absent.
- TenantTokens.EveryRunIsSafe: each stretch between two awaits is one atomic step; the clock is an arbitrary value that may jump.
- `sanitizeResponsesPayload`, the per-model ceiling lookup, and the mapping of upstream errors to error bodies and error kinds (the error event carries its message only).
- Cutting at an array position past the end, or at a key inside an array, which no path of the search contains: the model leaves the value unchanged.
- Model-name selection and version parsing, thinking settings and tool-choice mapping; tool definitions appear through their serialized length.
- Chat strings are Dafny strings standing for UTF-16 units; token counts are unbounded integers, and the `created` field of chunks is dropped.
- `tenantContext`, rate limiting, token counting, the control plane, the CLI and dashboards.
