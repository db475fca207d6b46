# Verified model of the kokekokkor gateway

kokekokkor is an LLM gateway: it accepts requests in one provider's wire protocol, forwards them in
another's, and turns the answers back. This Dafny 4.11 project models the state machines this rests
on and proves what they promise over runs of any length. `dafny verify dfyconfig.toml` checks it.

How the parts hang together:

* **Streams.** `Llm` holds the provider-neutral events, `Canonical` an interpreter that rejects
  ill-bracketed event streams and otherwise builds the message they mean. Each protocol has its wire
  chunks as datatypes, a *reading* of those chunks that knows nothing of events, a decoder and an
  encoder. A decoder theorem says that the emitted events mean what was read; an encoder theorem says
  that what was written reads as the message the events mean. `TranslationPairs` composes them for
  Gemini, Chat and Messages in all six directions, and for Messages into Responses; `SourceGates` says
  what the gates between them mean for the source chunks. `StopNames` and `UsageTold` tell which name
  stands for which stop and which count for which, over whole streams, and `EncoderLimits` which events
  an encoder takes.
* **Responses.** `ResponsesClient` follows a stream as a client would and refuses anything
  inconsistent; the encoder is proved acceptable to it for every event sequence. `StreamAccumulator`,
  `ResponseStore`, `StoredMeaning` and `GeminiToResponses` carry the proof that the stored response
  and the streamed one agree, for both the direct and the refusal-buffering transform; `ShownUsage`
  says which usage the client gets to see.
* **Realtime.** `LiveDecoder` × `RealtimeEncoder` (`RealtimeRelay`), what a client may rely on
  (`RealtimeClient`), and the session shared by two goroutines (`RealtimeSession`).
* **Background responses.** `Background` interleaves workers, cancel and delete requests action by
  action: one lock section, one load or one save each.
* **The rest.** WebSocket framing (`WebSocket`, RFC 6455 sections 5.2 to 5.5), server-sent events
  (`Sse`, section 9.2.6 of the WHATWG HTML Standard), UTF-8 boundaries (`Utf8`, section 3 of RFC
  3629), grounding citations (`Grounding`), catalog, router and credentials (`Catalog`, `Admin`),
  continued conversations (`Continuation`) and the transcript codec (`TranscriptCodec`).

A Go object whose methods update its fields is a class here, and every method's contract equates the
new state with a function of the old one; lemmas then speak about that function. A call of a callback
(`emit`, `write`) is an append to a sequence.

What the proofs found in the code. Each point names a lemma with a concrete input or run, and the one
that gives the exact condition under which the code does what is expected of it:

* A Messages block that starts with text is emitted twice (`MessagesRoundTrip.StartTextIsDoubled`); the
  text decoded equals the text sent exactly when no block start carries any
  (`MessagesReading.TextExactness`). A Responses stream announces such text with its part and repeats it
  as a delta, exactly for such blocks (`ResponsesClient.AnnouncedBlank`).
* A background cancellation can be overwritten for good by a status update that was already past its
  unlock (`Background.CancelOverwritten`): it is final exactly when no update is past its unlock at the
  moment it is saved (`Background.CancelStands`).
* A deleted background record can come back, with a late status update (`Background.DeletedComesBack`) or
  with the answer (`Background.DeletedBeforeAnswer`): a deletion is final exactly when no thread is past
  its last look at the store and the worker can no longer win its claim (`Background.DeleteStands`).
* A job reported as failed may have extended its conversation (`Background.FailedYetTold`): exactly when
  what failed was storing the answer (`Background.FailedToldExactly`).
* A Live message can leave a response open that holds nothing but usage: a tool call that reports usage
  (`RealtimeRelay.ToolUsageOpensResponse`), and a message between two turns that says nothing but
  reports some (`RealtimeRelay.UsageOpensResponse`); these are all
  (`RealtimeRelay.LeavesEmptyResponseExactly`).
* A Realtime tool result attached to an event that creates no item, for example a request for a response
  (`RealtimeSession.ResponseRequestDrops`), is dropped, and the real answer is then refused
  (`RealtimeSession.AnswerLost`); a result reaches Gemini exactly when no such event carried it
  (`RealtimeSession.AnswerForwardedExactly`).
* Between deleting a provider and forgetting its key, another request may create the provider again: it
  then serves with the old key (`Admin.OldKeyInherited`), and a new key is taken out of memory by the late
  forgetting (`Admin.LateForgetting`). `Admin.OverlappingAgrees` gives the exact condition.
* Stored tool arguments are compacted, so a transcript does not load exactly
  (`TranscriptCodec.SpacesAreLost`) unless its arguments were compact
  (`TranscriptCodec.BuiltTranscriptsSurvive`).
* The stored copy of a buffered stream may count usage the client was never shown
  (`GeminiToResponses.UsageComesLate`): they agree exactly when the last report comes no later than the
  finish (`GeminiToResponses.BufferedTransformTheorem`).

The stored copy of a streamed response also says `store: false` where the stream said `true`, for every
stored stream; this is part of what `GeminiToResponses.TransformTheorem` says of the record.

## Model

| member | source | states |
|---|---|---|
| Canonical.RunWellFormed | internal/domain/llm/stream.go:34-50 | every accepted event stream builds a message whose open blocks, items and calls are consistently indexed and distinct |
| Canonical.RunNumbered | internal/domain/llm/stream.go:34-50 | the call items of a message name its calls one after the other |
| Decimal.PrefixedInjective | internal/protocol/openai/realtime_server.go:239-242 | identifiers with one prefix are equal only for equal counters |
| GeminiDecoder.StreamDecoder.DecodeEvent | internal/protocol/gemini/stream.go:53-111 | one chunk moves the decoder as the step function says, on acceptance and on every failure |
| GeminiDecoder.StreamDecoder.DecodePartEvent | internal/protocol/gemini/stream.go:113-146 | thought, signature, text and call parts in the code's order of tests |
| GeminiDecoder.StreamDecoder.OpenText | internal/protocol/gemini/stream.go:148-163 | text goes to the open text block or opens one after closing what was open |
| GeminiDecoder.StreamDecoder.OpenReasoning | internal/protocol/gemini/stream.go:165-176 | the same for thinking |
| GeminiDecoder.StreamDecoder.DecodeFunctionCall | internal/protocol/gemini/stream.go:178-234 | id inheritance and numbering, block change, and emission of only the new tail of the arguments |
| GeminiDecoder.StreamDecoder.Close | internal/protocol/gemini/stream.go:236-243 | the active block is stopped exactly once |
| GeminiDecoder.StreamDecoder.Finish | internal/protocol/gemini/stream.go:96-110 | the finish reason, turned into tool use after a call, closes the block and stops the response |
| GeminiDecoder.Decode | internal/protocol/gemini/stream.go:42-51 | a whole stream is accepted exactly when no chunk fails and a started response stopped |
| GeminiDecoderProof.DecoderMeansReading | internal/protocol/gemini/stream.go:53-243 | for every stream: readable chunks are accepted and the events mean exactly what was read; unreadable ones fail or let content follow the stop |
| GeminiDecoderProof.PartTracks | internal/protocol/gemini/stream.go:113-234 | a part is decoded exactly when the reading accepts it, keeping one open block that is the last item |
| GeminiDecoderProof.PartsRefused | internal/protocol/gemini/stream.go:113-146 | in every state: which parts are taken, which say nothing and which are refused |
| GeminiDecoderProof.DecoderEmits | internal/protocol/gemini/stream.go:53-243 | only empty block starts, non-empty deltas and known stops are ever emitted |
| GeminiDecoderProof.TrespassRejected | internal/protocol/gemini/stream.go:53-111 | a stream that lets content follow its stop is not well bracketed |
| StopNames.GeminiStops | internal/protocol/gemini/response_codec.go:112-128 | for every finished stream: which finish reason stands for which stop, over the whole set of names |
| StopNames.GeminiNamesAccepted | internal/protocol/gemini/stream.go:96-110 | behind any stream a named finish is refused exactly if the name is unknown |
| StopNames.GeminiStopWritten | internal/protocol/gemini/response_codec.go:130-141 | the name each stop is written under |
| GeminiEncoder.StreamEncoder.EncodeEvent | internal/protocol/gemini/stream.go:266-365 | each event's chunk, collected tool arguments and every refusal |
| GeminiEncoder.EncoderTells | internal/protocol/gemini/stream.go:266-365 | for every well-bracketed stream with distinguishable calls: accepted exactly when all call arguments are objects, and the chunks read as the same text, the calls as completed, and the stop up to `STOP` |
| GeminiEncoder.AddCallSays | internal/protocol/gemini/stream.go:296-313 | a written call is read as a call of its own |
| UsageTold.GeminiReports | internal/protocol/gemini/stream.go:73-85 | the usage reports are the chunks' metadata, one by one and count by count |
| UsageTold.GeminiUsageWritten | internal/protocol/gemini/stream.go:314-348 | the finishing chunk carries the counts reported last |
| EncoderLimits.GeminiTakes | internal/protocol/gemini/stream.go:266-348 | which events a Gemini stream takes in any state |
| ChatStream.StreamDecoder.DecodeEvent | internal/protocol/openai/chat_stream.go:55-180 | one frame, `[DONE]` included, moves the decoder as the step function says |
| ChatStream.StreamDecoder.DecodeChoice | internal/protocol/openai/chat_stream.go:103-170 | content, tool calls and finish reason of a choice, in order |
| ChatStream.StreamDecoder.DecodeCall | internal/protocol/openai/chat_stream.go:131-162 | a tool index opens one block and later pieces go to it |
| ChatStream.StreamDecoder.Conclude | internal/protocol/openai/chat_stream.go:66-76 | `[DONE]` without a known finish fails, otherwise closes every open block in order and stops |
| ChatStream.StreamDecoder.Close | internal/protocol/openai/chat_stream.go:182-195 | the loop stops the blocks one by one, in the order given |
| ChatStream.Decode | internal/protocol/openai/chat_stream.go:55-180 | a whole stream is accepted exactly when no frame fails and a started response was done |
| Sorting.Sort | internal/protocol/openai/chat_stream.go:182-190 | the open indexes in increasing order, each once |
| Sorting.SortedUnique | internal/protocol/openai/chat_stream.go:182-190 | an increasing list of a set's elements is its sorted list |
| ChatReading.DecoderHears | internal/protocol/openai/chat_stream.go:55-195 | for every stream with nothing after `[DONE]`: accepted exactly when readable, and the events mean what was read, calls completed in order |
| ChatReading.AcceptedExactly | internal/protocol/openai/chat_stream.go:173-180 | a whole stream is accepted exactly when it is readable and, once begun, was done |
| ChatReading.CloseRuns | internal/protocol/openai/chat_stream.go:182-195 | closing the open blocks completes the calls in the order they began |
| ChatReading.DecoderEmits | internal/protocol/openai/chat_stream.go:55-195 | only empty block starts and known stops are ever emitted |
| StopNames.ChatStops | internal/protocol/openai/chat_response.go:122-135 | a finished stream stops as the finish reason named last says |
| StopNames.ChatNamesAccepted | internal/protocol/openai/chat_stream.go:163-172 | behind any stream a named finish is refused exactly if the name is unknown |
| StopNames.ChatStopWritten | internal/protocol/openai/chat_response.go:137-150 | the name each stop is written under, in the last choice |
| ChatStream.StreamEncoder.EncodeEvent | internal/protocol/openai/chat_stream.go:231-354 | each event's chunk, the tool index map, the usage chunk and every refusal |
| ChatReading.EncoderTells | internal/protocol/openai/chat_stream.go:231-354 | for every well-bracketed stream without reasoning text: accepted, and the chunks read as the same text, the same calls in order and the stop up to `stop` |
| ChatReading.EncoderTellsUsage | internal/protocol/openai/chat_stream.go:285-299 | a finished stream shows the last usage reported before the stop, exactly when usage was asked for |
| UsageTold.ChatReports | internal/protocol/openai/chat_stream.go:197-209 | the same for Chat, absent counts being zero |
| UsageTold.ChatUsageWritten | internal/protocol/openai/chat_stream.go:330-354 | the usage chunk is written exactly if asked for and any was reported, with the counts reported last |
| EncoderLimits.ChatTakes | internal/protocol/openai/chat_stream.go:231-308 | which events a Chat stream takes in any state; a refused one leaves no trace |
| MessagesStream.StreamDecoder.DecodeEvent | internal/protocol/anthropic/messages_stream.go:29-265 | every event type, its state changes and failures |
| MessagesStream.StreamDecoder.BeginBlock | internal/protocol/anthropic/messages_stream.go:75-133 | block starts, text doubled and thinking held back until there is some |
| MessagesStream.StreamDecoder.TakePiece | internal/protocol/anthropic/messages_stream.go:135-180 | deltas by kind, signatures and thinking only within a thinking block |
| MessagesStream.StreamDecoder.EndBlock | internal/protocol/anthropic/messages_stream.go:182-197 | a thinking block that never showed ends silently |
| MessagesStream.StreamDecoder.MergeUsage | internal/protocol/anthropic/messages_stream.go:276-289 | only the counters present are replaced |
| UsageTold.MessagesReports | internal/protocol/anthropic/messages_stream.go:276-289 | every count is the latest given, and each frame that gives any is followed by a report of all |
| UsageTold.MessagesUsageWritten | internal/protocol/anthropic/messages_stream.go:380-415 | the final delta carries the counts reported last |
| EncoderLimits.MessagesTakes | internal/protocol/anthropic/messages_stream.go:303-437 | which events a Messages stream takes in any state |
| EncoderLimits.MessagesErrorWritten | internal/protocol/anthropic/messages_stream.go:418-433 | an error is written as one frame, under a default code if it has none |
| EncoderLimits.MessagesErrorRead | internal/protocol/anthropic/messages_stream.go:235-253 | an error read is an error reported, and which can be retried |
| MessagesStream.Decode | internal/protocol/anthropic/messages_stream.go:29-265 | a whole stream is accepted exactly when no event fails and a started message stopped |
| MessagesReading.DecoderHears | internal/protocol/anthropic/messages_stream.go:29-289 | for every stream that can be read, interleaved blocks and silent thinking included: accepted, and the events mean the text, calls, thinking and usage read, block starts saying their text twice |
| MessagesReading.AcceptedExactly | internal/protocol/anthropic/messages_stream.go:259-265 | a whole readable stream is accepted exactly when it stopped, once begun |
| MessagesReading.ReadableExactly | internal/protocol/anthropic/messages_stream.go:29-265 | without thinking blocks a stream can be read exactly when it is accepted and its events are well bracketed |
| MessagesReading.TextExactness | internal/protocol/anthropic/messages_stream.go:92-102 | the decoded text is the text read exactly when no block start carried any |
| MessagesReading.DecoderEmits | internal/protocol/anthropic/messages_stream.go:29-265 | with empty starts, only empty block starts, known stops and no error are emitted |
| StopNames.MessagesStops | internal/protocol/anthropic/messages_response.go:105-120 | a stopped stream stops as the reason named last before its end says |
| StopNames.MessagesNamesAccepted | internal/protocol/anthropic/messages_stream.go:199-231 | behind any stream a stop reason is refused exactly if its name is unknown |
| StopNames.MessagesStopWritten | internal/protocol/anthropic/messages_response.go:122-137 | the name each stop is written under, and its sequence |
| MessagesStream.StreamEncoder.EncodeEvent | internal/protocol/anthropic/messages_stream.go:303-437 | each event's frame, the usage of the final delta and every refusal |
| MessagesRoundTrip.RoundTrip | internal/protocol/anthropic/messages_stream.go:29-437 | decoding what the encoder wrote succeeds for every event list it accepts and gives back, usage aside, exactly the described answers |
| MessagesRoundTrip.ExactRoundTrip | internal/protocol/anthropic/messages_stream.go:29-437 | usage aside, the events come back unchanged exactly when each is one the wire carries without loss |
| MessagesRoundTrip.RoundTripNeedsEmptyStarts | internal/protocol/anthropic/messages_stream.go:92-102 | as many events come back too many as blocks started with text |
| MessagesRoundTrip.StartTextIsDoubled | internal/protocol/anthropic/messages_stream.go:92-102 | the input that shows it: a start with text comes back as start and delta |
| MessagesRoundTrip.EncoderKeepsMeaning | internal/protocol/anthropic/messages_stream.go:303-437 | every well-bracketed stream without reasoning is accepted and decodes to the same message, blocks and order included, the usage but for reasoning tokens |
| TranslationPairs.GeminiToChat | internal/translator/runtime_gemini_stream.go:17-64 | succeeds exactly when there is no thinking; then the Chat chunks say the same text, calls and stop |
| TranslationPairs.GeminiToMessages | internal/translator/runtime_anthropic_gemini_stream.go:17-64 | succeeds exactly without thinking, counted thoughts or a filtered finish; then the Messages stream decodes to the message read |
| TranslationPairs.ChatToGemini | internal/translator/runtime_gemini_stream.go:158-200 | succeeds exactly when all arguments are objects; then the Gemini chunks say the same text, calls with reprinted arguments, and stop up to `STOP` |
| TranslationPairs.ChatToMessages | internal/translator/runtime_stream.go:65-110 | succeeds exactly when no chunk counted reasoning; then the Messages stream decodes to the message read |
| TranslationPairs.MessagesToChat | internal/translator/runtime_stream.go:18-63 | succeeds exactly when nothing is thought and no cache write counted; then the Chat chunks say the same text, calls and stop up to `stop` |
| TranslationPairs.MessagesToGemini | internal/translator/runtime_anthropic_gemini_stream.go:66-108 | succeeds exactly when no thought comes, no cache write is counted and all arguments are objects; then the Gemini chunks say the same text, calls as completed and stop up to `STOP` |
| TranslationPairs.MessagesToResponses | internal/translator/runtime_responses_stream.go:50-97 | succeeds exactly when a filtered stream finds refusal mode on; then the output shows item for item the texts, refusals, calls and thinking read |
| TranslationPairs.ErrorToResponses | internal/translator/runtime_responses_stream.go:50-97 | a Messages stream that breaks off with an error ends the Responses stream with one failed response that shows it |
| TranslationPairs.ThoughtShows | internal/application/translation/gemini_stream.go:118-162 | a stream mentions thinking exactly when its message holds some |
| TranslationPairs.GateIntoMessages | internal/application/translation/anthropic_gemini_stream.go:65-98 | the gate passes a decoded stream exactly on the stated conditions |
| TranslationPairs.GateIntoResponses | internal/application/translation/responses_stream.go:43-76 | the gate passes a decoded stream exactly unless a filtered stop finds refusals off |
| TranslationPairs.OutputCalls | internal/protocol/openai/responses_stream.go:183-321 | the function calls of an output are the calls of the message, in order |
| SourceGates.GeminiCounts | internal/application/translation/anthropic_gemini_stream.go:65-98 | the events count reasoning exactly when a chunk counts thoughts |
| SourceGates.ChatCounts | internal/application/translation/stream_event.go:9-26 | the events count reasoning exactly when a chunk does |
| SourceGates.ChatPasses | internal/application/translation/stream_event.go:28-43 | the gate from Messages into Chat passes exactly when nothing is thought and no cache write counted |
| SourceGates.GeminiPasses | internal/application/translation/anthropic_gemini_stream.go:32-63 | the gate from Messages into Gemini passes exactly when there is no thought, no error and no counted cache write |
| Gates.GeminiIsCarried | internal/application/translation/gemini_stream.go:75-83 | what the Gemini gate passes, a Responses stream can carry |
| ResponsesEncoder.StreamEncoder.SetState | internal/protocol/openai/responses_stream.go:57-61 | the state shown in snapshots |
| ResponsesEncoder.StreamEncoder.SetRefusalMode | internal/protocol/openai/responses_stream.go:53-55 | whether text is shown as a refusal |
| ResponsesEncoder.StreamEncoder.EncodeEvent | internal/protocol/openai/responses_stream.go:63-91 | each event's whole effect on state and output, accepted or not |
| ResponsesEncoder.StreamEncoder.BeginResponse | internal/protocol/openai/responses_stream.go:93-110 | a second start is refused; the first writes two numbered snapshots |
| ResponsesEncoder.StreamEncoder.BeginContent | internal/protocol/openai/responses_stream.go:112-168 | a fresh index gets an item of its own at the end of the output |
| ResponsesEncoder.StreamEncoder.BeginToolCall | internal/protocol/openai/responses_stream.go:183-215 | the same for a tool call |
| ResponsesEncoder.StreamEncoder.AppendText | internal/protocol/openai/responses_stream.go:170-181 | text goes to its block's builder and to the whole text |
| ResponsesEncoder.StreamEncoder.AppendThinking | internal/protocol/openai/responses_summary_stream.go:47-95 | thinking goes to its block's summary |
| ResponsesEncoder.StreamEncoder.AppendArguments | internal/protocol/openai/responses_stream.go:217-236 | arguments go to their call's builder |
| ResponsesEncoder.StreamEncoder.EndContent | internal/protocol/openai/responses_stream.go:238-321 | a block ends with its done events and its item completed in place |
| ResponsesEncoder.StreamEncoder.EndResponse | internal/protocol/openai/responses_stream.go:323-351 | a stop with open blocks or an unknown reason is refused, otherwise completed or incomplete is written |
| ResponsesEncoder.StreamEncoder.Fail | internal/protocol/openai/responses_stream_error.go:9-30 | the failed snapshot |
| ResponsesClient.EncoderInvariant | internal/protocol/openai/responses_stream.go:93-385 | for any event sequence, what is written is a stream the client accepts: numbered, items announced once with distinct ids, deltas only to items in progress, snapshots equal to what was seen, completed ones listing finished items only |
| ResponsesClient.FirstStartNames | internal/protocol/openai/responses_stream.go:63-105 | every snapshot of a stream is of the response its first start names, under the state given |
| ResponsesClient.FollowedNumbering | internal/protocol/openai/responses_stream.go:376-385 | the k-th event carries sequence number k |
| ResponsesClient.OneTerminal | internal/protocol/openai/responses_stream.go:323-351 | at most one terminal event, and nothing after completed or incomplete |
| ResponsesClient.DoneIsConcatenation | internal/protocol/openai/responses_stream.go:238-321 | each done text, refusal, summary or argument list is the concatenation of its item's deltas, `{}` for a call without any |
| ResponsesClient.ItemIDsDiffer | internal/protocol/openai/responses_stream.go:112-215 | generated item ids differ across positions and kinds |
| ResponsesClient.AnnouncedBlank | internal/protocol/openai/responses_stream.go:112-168 | announced parts carry no text exactly when no text block opened with text, which would show it twice |
| ResponsesClient.ErrorShown | internal/protocol/openai/responses_stream_error.go:9-30 | an error in a running response writes exactly one further event, with its code and message, and is refused at any other time |
| UsageTold.ResponsesUsageShown | internal/protocol/openai/responses_stream.go:387-427 | the event that ends a response shows the counts reported last |
| EncoderLimits.ResponsesTakes | internal/protocol/openai/responses_stream.go:63-351 | which events a Responses stream takes in any state |
| ResponsesMeaning.EncoderMirrors | internal/protocol/openai/responses_stream.go:63-351 | every portable well-bracketed stream is accepted event by event and the encoder's blocks and output mirror the message: no unopened, already started or open-block error is reachable |
| ResponsesMeaning.StepMirrors | internal/protocol/openai/responses_stream.go:63-351 | one event keeps encoder and message in step |
| ResponsesMeaning.FinishedOutput | internal/protocol/openai/responses_stream.go:387-427 | with nothing open, the output is the rendering of the message |
| ResponseStore.EncodeOutput | internal/protocol/openai/responses_encode.go:75-174 | the loop with its text flushing computes the buffered output or rejects the block the code rejects |
| ResponseStore.EncodingSays | internal/protocol/openai/responses_encode.go:75-174 | the buffered output carries the content's calls, message parts and text in order |
| ResponseStore.EncodingShows | internal/protocol/openai/responses_encode.go:75-174 | the buffered output shows all the content holds, texts, calls and thinking in their order, in complete items, each kind numbered on its own |
| ResponseStore.TextsShareMessages | internal/protocol/openai/responses_encode.go:82-100 | texts with nothing between them share one message; only withheld thinking parts them |
| ResponseStore.PersistSucceeds | internal/translator/response_state.go:128-168 | persisting succeeds exactly when no write it makes is refused, the conversation has a name and what is stored can be encoded |
| StreamAccumulator.Accumulator.Watch | internal/translator/response_state_stream.go:37-85 | what one event adds to the collected state |
| StreamAccumulator.Accumulator.Gather | internal/translator/response_state_stream.go:107-129 | the loop over the collected indexes builds their blocks or finds invalid arguments |
| StreamAccumulator.Accumulator.Contents | internal/translator/response_state_stream.go:94-132 | the collected blocks in index order, with a marker after reasoning |
| StreamAccumulator.Accumulator.Save | internal/translator/response_state_stream.go:87-145 | saving refuses a missing id, stop or valid arguments and otherwise persists the collected response |
| StoredMeaning.AccumulatorHolds | internal/translator/response_state_stream.go:37-85 | for every stream the accumulator holds exactly the message's texts and calls |
| StoredMeaning.ContentIsPortables | internal/translator/response_state_stream.go:87-130 | what is stored is the message's texts and calls in order |
| StoredMeaning.RenderingsAgree | internal/protocol/openai/responses_encode.go:75-174 | item by item, stored content and streamed output carry the same calls and texts |
| GeminiToResponses.Transformer.Handle | internal/translator/runtime_gemini_stream.go:107-122 | gate, observe, persist, encode, in that order, failing where the code fails |
| GeminiToResponses.Run | internal/translator/runtime_gemini_stream.go:101-122 | the whole direct transform, frame by frame |
| GeminiToResponses.TransformTheorem | internal/translator/runtime_gemini_stream.go:101-122 | for every stream: the direct transform succeeds exactly when the chunks are readable, the stream is empty or finished unfiltered, has an id and valid arguments, and no write is refused; snapshot and record then agree with what was read, the usage reported by the finish included, and conversation and record hold the history with the message, nothing else in the store having changed |
| GeminiToResponses.BufferedTransformTheorem | internal/translator/runtime_gemini_stream.go:123-148 | the same for the buffered transform, a filtered stream being delivered as a refusal; the usages agree exactly when the finish comes with or after the last report |
| GeminiToResponses.UsageComesLate | internal/translator/runtime_gemini_stream.go:123-148 | the stream whose stored usage the client was not shown |
| ShownUsage.ShownAtStop | internal/protocol/openai/responses_stream.go:323-351 | the usage at the stop of the events is the one the chunks had reported by their finish |
| ShownUsage.ReadingReports | internal/protocol/gemini/stream.go:53-111 | what is read of a stream are its last report and whether it finished |
| GeminiToResponses.SavedWhenRelayed | internal/translator/runtime_gemini_stream.go:115-121 | nothing is completed for the client that could not be saved |
| GeminiToResponses.SaveAgrees | internal/translator/response_state.go:128-168 | the record saved and the snapshot shown have the same id, status, calls, parts and text |
| GeminiToResponses.PersistsExactly | internal/translator/response_state_stream.go:87-145 | persisting what was collected succeeds exactly when all is permitted, the stream stopped and its calls' arguments are valid |
| GeminiToResponses.SavesExactly | internal/translator/response_state_stream.go:87-145 | the same, told from the chunks |
| GeminiToResponses.StreamRemembered | internal/translator/response_state_stream.go:87-145 | what is persisted of a stream is its message: its texts and calls follow the history, and it can be continued unless there was reasoning |
| GeminiToResponses.GatesPass | internal/application/translation/gemini_stream.go:75-162 | the gate passes what the decoder emits exactly unless the stop is filtered and refusals are off |
| GeminiToResponses.NormalizeTwice | internal/protocol/openai/responses_stream.go:440-448 | normalising an id again changes nothing |
| GeminiToResponses.TrespassRefused | internal/protocol/openai/responses_stream.go:63-351 | the encoder refuses content that follows a stop |
| Background.Runtime.RegisterJob | internal/translator/background_responses.go:60-65 | the lock section that adds a job |
| Background.Runtime.ClaimJob | internal/translator/background_responses.go:135-143 | the lock section that takes a job out of the table |
| Background.Runtime.MarkJob | internal/translator/background_responses.go:169-177 | the lock section that updates a job still in the table |
| Background.Runtime.LoadResponse | internal/translator/response_state.go:28-42 | one load |
| Background.Runtime.SaveResponse | internal/translator/response_state.go:44-57 | one save |
| Background.Runtime.DeleteResponse | internal/translator/response_state.go:59-67 | one delete, failing on a missing record |
| Background.Runtime.SaveConversation | internal/translator/response_state.go:207-217 | one conversation save, which replaces what was there |
| Background.CancelBackgroundResponse | internal/translator/background_responses.go:145-167 | the cancel routine when nothing interferes |
| Background.CancelReports | internal/translator/background_responses.go:145-166 | a cancellation is the caller's exactly if there was a job, fails exactly if that left no record, and otherwise changes that record alone |
| Background.SetBackgroundStatus | internal/translator/background_responses.go:169-194 | the status update when nothing interferes |
| Background.MarkReports | internal/translator/background_responses.go:169-194 | a status update does nothing without a job, and leaves a record that is gone alone |
| Background.CallRunsCancel | internal/translator/background_responses.go:145-167 | the cancel request's three actions are that routine, cut where others may act |
| Background.WorkerRunsMark | internal/translator/background_responses.go:169-194 | the worker's three actions are that routine |
| Background.PerformKeeps | internal/translator/background_responses.go:76-194 | every action of every thread keeps the invariant |
| Background.ClaimsAreExclusive | internal/translator/background_responses.go:135-167 | in every reachable state a job was claimed at most once, a listed job is unclaimed and has a live worker, answers and conversation turns belong to workers that won |
| Background.ClaimsStay | internal/translator/background_responses.go:135-143 | no action takes a claim away or lets another win |
| Background.OnlyTheWinnerAnswers | internal/translator/background_responses.go:102-132 | a record becomes continuable, completed or incomplete only by the store of a worker that won |
| Background.CancelledOnlyOvertaken | internal/translator/background_responses.go:169-194 | a cancelled record is replaced only by a status update already past its unlock at the claim |
| Background.SettledStays | internal/translator/background_responses.go:76-194 | once claimed with nothing on its way, a record can only be removed |
| Background.AnswerStands | internal/translator/background_responses.go:102-132 | a stored answer changes only by being removed, in every continuation |
| Background.RecordsSay | internal/translator/background_responses.go:76-194 | in every reachable state a record with an answer holds one the work gave, incomplete exactly if it was cut at its limit and continuable exactly if it is; any other shows the status it reports, and no error that did not happen |
| Background.ConversationsSay | internal/translator/background_responses.go:76-133 | in every reachable state a conversation holds the history its last saved job was started with, and the text that job's work answered |
| Background.CancelStands | internal/translator/background_responses.go:145-167 | a cancellation about to be saved is final exactly when no status update is past its unlock at that moment, as none is if it overtook none |
| Background.AbsentForGood | internal/translator/background_responses.go:76-194 | in every reachable state an absent record stays absent exactly when no thread is about to write it and the worker can no longer win its claim, which a claimed job rules out |
| Background.DeleteStands | internal/translator/response_resource.go:67-84 | a deletion is final under exactly that condition on the moment before it; always for the request that claimed the job and overtook no status update |
| Background.CancelOverwritten | internal/translator/background_responses.go:169-194 | the run in which a cancellation is overwritten for good |
| Background.DeletedComesBack | internal/translator/response_resource.go:67-84 | the run in which a deleted record is put back by a status update |
| Background.DeletedBeforeAnswer | internal/translator/response_resource.go:67-84 | the run in which a delete after the worker's claim is followed by the answer |
| Background.FailedYetTold | internal/translator/response_state.go:138-152 | the run in which a job reported as failed has replaced its conversation |
| Background.FailedToldExactly | internal/translator/background_responses.go:102-132 | in every run a job whose delivery failed has extended its conversation exactly when what failed was storing the answer |
| WebSocket.ApplyMask | internal/transport/websocket/conn.go:191-195 | the in-place loop masks every byte with the mask byte of its position |
| WebSocket.MaskTwice | internal/transport/websocket/conn.go:191-195 | masking twice changes nothing (RFC 6455 section 5.3) |
| WebSocket.ValueOfBigEndian | internal/transport/websocket/conn.go:154-171 | extended lengths survive network byte order |
| WebSocket.Conn.Receive | internal/transport/websocket/conn.go:136-197 | reads one frame or fails with the code's error, consuming exactly what the code consumes |
| WebSocket.Conn.Transmit | internal/transport/websocket/conn.go:199-261 | writes one frame, drawing one mask if client |
| WebSocket.Conn.Read | internal/transport/websocket/conn.go:56-106 | the reading loop, its answers and its errors |
| WebSocket.Conn.WriteText | internal/transport/websocket/conn.go:108-116 | refuses exactly the texts beyond the limit |
| WebSocket.Conn.SetMaxMessageBytes | internal/transport/websocket/conn.go:50-54 | only positive limits are taken |
| WebSocket.FrameRoundTrip | internal/transport/websocket/conn.go:136-261 | the peer reads back exactly the frame written and stops where it ended, if and only if it may be sent (four-bit opcode, control frames final and at most 125 bytes, within the limit), else the stated error; all length forms, both roles |
| WebSocket.ReadFrameSound | internal/transport/websocket/conn.go:136-197 | whatever bytes arrive, an accepted frame keeps the limits and what follows is untouched |
| WebSocket.ReadsExactly | internal/transport/websocket/conn.go:136-197 | whatever bytes arrive: taken for a frame exactly if nothing is wrong by position, then laid out as section 5.2 of RFC 6455 says; otherwise the first fault in header order |
| WebSocket.WritesLaidOut | internal/transport/websocket/conn.go:199-261 | what is written is laid out so, byte by byte, under the shortest length and its key |
| WebSocket.SameRoleRefused | internal/transport/websocket/conn.go:146-152 | two ends of one role refuse each other's frames |
| WebSocket.FramesAreJoined | internal/transport/websocket/conn.go:56-106 | a message over any frames is joined, every ping answered in order, nothing behind it touched |
| WebSocket.JoinedFromFrames | internal/transport/websocket/conn.go:56-134 | a text is returned only for such frames and never exceeds the limit |
| WebSocket.PongsReadBack | internal/transport/websocket/conn.go:72-76 | the pongs written are valid frames with the pings' payloads |
| WebSocket.AnySplitIsReassembled | internal/transport/websocket/conn.go:56-134 | for every split of a text with pings and pongs mixed in: reassembled and answered exactly when within the limit |
| LiveDecoder.StreamDecoder.Decode | internal/protocol/gemini/live_stream.go:35-136 | which messages are accepted, the events and the fields afterwards |
| LiveDecoder.StreamDecoder.DecodeContent | internal/protocol/gemini/live_stream.go:56-96 | text or audio output, modality changes refused |
| LiveDecoder.StreamDecoder.DecodeToolCalls | internal/protocol/gemini/live_stream.go:138-171 | the calls' events, then a tool-use stop |
| LiveDecoder.AcceptsExactly | internal/protocol/gemini/live_stream.go:35-136 | in every state: which messages are accepted |
| LiveDecoder.TurnsEnd | internal/protocol/gemini/live_stream.go:107-136 | what is open afterwards, and how a turn ends |
| RealtimeEncoder.ServerEncoder.EncodeEvent | internal/protocol/openai/realtime_server.go:33-57 | each event's whole effect, or refusal |
| RealtimeEncoder.ServerEncoder.BeginResponse | internal/protocol/openai/realtime_server.go:59-71 | a second start is refused; a new one resets everything but the id counter |
| RealtimeEncoder.ServerEncoder.BeginContent | internal/protocol/openai/realtime_server.go:73-116 | one open content at a time, of a known kind |
| RealtimeEncoder.ServerEncoder.EndContent | internal/protocol/openai/realtime_server.go:147-188 | the done events and the finished item |
| RealtimeEncoder.ServerEncoder.NextID | internal/protocol/openai/realtime_server.go:239-242 | one counter for all identifiers |
| RealtimeEncoder.ServerEncoder.Clear | internal/protocol/openai/realtime_server.go:244-258 | everything but counter and output stream is reset |
| RealtimeClient.IdentifiersDiffer | internal/protocol/openai/realtime_server.go:59-242 | all generated event, item and response ids of a session are pairwise different |
| RealtimeClient.EverythingAgrees | internal/protocol/openai/realtime_server.go:33-258 | for any event list: each done text or arguments is the concatenation of its deltas, items are numbered by the items done before, a finished response lists exactly those |
| RealtimeClient.DoneShows | internal/protocol/openai/realtime_server.go:190-217 | a stopped response is reported done with the usage since it began and its last modality |
| RealtimeClient.CreatedShows | internal/protocol/openai/realtime_server.go:59-71 | a response that begins shows nothing of the one before |
| RealtimeRelay.MessageRelayed | internal/translator/realtime_session.go:113-125 | an accepted message is relayed exactly when it does not interrupt, keeping both machines in step |
| RealtimeRelay.SessionRelayed | internal/translator/realtime_session.go:87-126 | over every accepted run the encoder fails at interruptions only, and the client hears all that was said, in order |
| RealtimeRelay.SessionSound | internal/protocol/openai/realtime_server.go:33-258 | over a whole session identifiers never repeat and done means streamed |
| RealtimeRelay.ToolUsageOpensResponse | internal/protocol/gemini/live_stream.go:98-116 | a tool call with usage opens a further response for it |
| RealtimeRelay.UsageOpensResponse | internal/protocol/gemini/live_stream.go:98-105 | so does a message between two turns that only reports usage, or sets the session up and reports some |
| RealtimeRelay.LeavesEmptyResponseExactly | internal/protocol/gemini/live_stream.go:35-136 | for every accepted message in every state: it leaves a response open that holds only usage exactly in those cases |
| RealtimeSession.LiveClientEncoder.Encode | internal/protocol/gemini/live_client.go:32-273 | setup once and first, content only after it |
| RealtimeSession.SessionBridge.Client | internal/translator/realtime_session.go:44-82 | the reply to a client event and the state afterwards |
| RealtimeSession.RepliesExactly | internal/translator/realtime_session.go:44-82 | the reply to every client event in every state, and what it changes |
| RealtimeSession.SessionBridge.RememberToolCalls | internal/translator/realtime_session.go:128-145 | calls are stored up to the first without id or name |
| RealtimeSession.SessionBridge.Server | internal/translator/realtime_session.go:87-126 | what a server message does to the bridge, also when it fails late |
| RealtimeSession.ServesExactly | internal/translator/realtime_session.go:87-126 | which server messages are taken, and what they leave remembered |
| RealtimeSession.SessionSound | internal/transport/realtime/gemini.go:141-189 | for every interleaving of the two loops: one setup, first; nothing after it before `setupComplete`; the two setup flags agree; no client event lost, repeated or reordered |
| RealtimeSession.LoopsMove | internal/transport/realtime/gemini.go:141-189 | which steps each loop can take, and where translating leads |
| RealtimeSession.RetriedOnce | internal/transport/realtime/gemini.go:147-157 | a pending reply changes nothing and an event waits at most once |
| RealtimeSession.ResultsAreBacked | internal/translator/realtime_session.go:52-81 | results forwarded for a call, those dropped and the one outstanding never exceed the times it was made, and no call made is forgotten |
| RealtimeSession.ResultForwarded | internal/translator/realtime_session.go:52-81 | a result is taken off the calls that are due, and forwarded exactly when its event creates an item |
| RealtimeSession.AnswerForwardedExactly | internal/translator/realtime_session.go:52-81 | over every interleaving the result of a call made once and no longer due was forwarded exactly when no event of another kind carried one |
| RealtimeSession.AnswerLost | internal/translator/realtime_session.go:52-81 | in every state an event of another kind uses up the call without forwarding its result, and every later answer is refused |
| RealtimeSession.ResponseRequestDrops | internal/translator/realtime_session.go:52-81 | a request for a response that carries a tool result is such an event |
| Sse.Decode | internal/protocol/sse/sse.go:19-79 | the line loop computes the events, the limits and the final flush |
| Sse.Write | internal/protocol/sse/sse.go:81-94 | the lines of one event |
| Sse.RoundTrip | internal/protocol/sse/sse.go:19-94 | reading what was written succeeds exactly when every event fits, and gives the same events with leading newlines stripped and empty ones dropped |
| Sse.RoundTripExact | internal/protocol/sse/sse.go:19-94 | events come back unchanged exactly when none is empty and no data starts with a newline |
| Sse.GatheredIsStripped | internal/protocol/sse/sse.go:57-69 | joining the data lines gives the data without leading newlines |
| Sse.ForeignLines | internal/protocol/sse/sse.go:29-55 | lines as others write them: without a colon, with one in front, with or without the space behind it |
| Sse.CRLFHeardAlike | internal/protocol/sse/sse.go:29-55 | lines ending in a carriage return and a newline are heard like the others |
| Utf8.RuneIndexIsBoundary | internal/protocol/gemini/response_codec.go:214-222 | on valid UTF-8 exactly the code-point boundaries are accepted, with the unique rune that starts there |
| Utf8.RuneIndexMonotone | internal/protocol/gemini/response_codec.go:214-222 | order of offsets is order of indexes, strictly, within the text |
| Utf8.WidthExactly | internal/protocol/gemini/response_codec.go:214-222 | bytes count as one rune of several bytes exactly if they encode one |
| Utf8.Cut | internal/application/upstream/error.go:35-38 | the backward loop stops at the last byte that starts a rune |
| Utf8.CutBetweenRunes | internal/application/upstream/error.go:35-39 | the cut lies between runes, takes all that fit and wastes at most three bytes |
| Utf8.PublicErrorMessage | internal/application/upstream/error.go:30-40 | trimmed, cut as late as the limit allows, marked, valid UTF-8 again and within the bound |
| Grounding.ApplyGrounding | internal/protocol/gemini/response_codec.go:143-212 | the loops compute the grounded content, a refusal or an error |
| Grounding.GroundingIsAllOrNothing | internal/protocol/gemini/response_codec.go:143-212 | applied exactly when every support is sound; texts stay, citations are only added |
| Grounding.GroundingAdds | internal/protocol/gemini/response_codec.go:173-207 | each text ends up with exactly the citations its supports call for, between the runes their bytes name, in order |
| Grounding.FirstUnsoundDecides | internal/protocol/gemini/response_codec.go:174-197 | the first support that is not sound decides whether the answer fails or the metadata is passed on |
| Grounding.GroundingIsValid | internal/domain/llm/validate.go:83-91 | the citations added are valid exactly when no citing support runs backwards |
| Catalog.Validate | internal/domain/catalog/catalog.go:29-83 | accepts exactly the catalogs with valid distinct providers and defaults and routes to enabled ones |
| Catalog.RoutingTargets | internal/bootstrap/catalog.go:77-86 | the enabled providers with their keys, in order |
| Catalog.Router.ReplaceProtocols | internal/application/routing/router.go:85-212 | a table is replaced as a whole or not at all |
| Catalog.BuildsExactly | internal/application/routing/router.go:147-212 | for any targets, defaults and routes: when a table can be built, and what it then says |
| Catalog.Router.Resolve | internal/application/routing/router.go:94-137 | the plan for a request |
| Catalog.ValidCatalogBuilds | internal/bootstrap/catalog.go:77-100 | every valid catalog, with any keys, builds a table that says what the catalog says |
| Catalog.ResolveOnBuilt | internal/application/routing/router.go:94-137 | no unknown provider; routed models on their targets in order under their aliases, any other on the default of its protocol |
| Catalog.TableUnique | internal/application/routing/router.go:147-212 | catalog and keys determine the table |
| Admin.Services.UpdateCatalog | internal/application/catalog/service.go:143-191 | both orders of persisting and applying, with their rollbacks |
| Admin.Services.UpdateAPIKey | internal/application/credentials/service.go:97-142 | storing, applying and rolling back one key |
| Admin.Services.ForgetProvider | internal/application/credentials/service.go:64-75 | a key leaves memory |
| Admin.Services.Handle | internal/transport/adminhttp/handler.go:181-338 | a request that no other interrupts, whichever of its steps fail |
| Admin.ChangeDoes | internal/application/catalog/service.go:31-141 | each change can be made exactly when what it names allows it, and changes only what it names |
| Admin.EditSucceeds | internal/application/catalog/service.go:143-191 | a change is made exactly when it can be, its outcome is a valid catalog and no step fails |
| Admin.RouterFollows | internal/bootstrap/catalog.go:77-100 | the router then serves exactly the enabled providers as the changed catalog has them, under their keys |
| Admin.EnabledIsServed | internal/application/catalog/service.go:98-109 | a provider is served exactly if it was last enabled |
| Admin.KeySucceeds | internal/application/credentials/service.go:77-142 | a key is set exactly if neither part is blank, the provider is there and no step fails; the router then uses it |
| Admin.OperationAgrees | internal/application/catalog/service.go:143-191 | every service call leaves router, catalog and keys in agreement, whichever of its steps fails, exactly unless it creates a provider whose key is still in memory; a failed one changes nothing |
| Admin.ForgettingAgrees | internal/application/credentials/service.go:64-75 | forgetting a key does no harm exactly when none is stored by then |
| Admin.OperationCoherent | internal/application/catalog/service.go:143-191 | whichever step of an operation fails, router, catalog and keys stay coherent; a failed operation changes nothing, a successful one did what was asked |
| Admin.RunCoherent | internal/application/credentials/service.go:97-142 | coherence over any run of operations, deleting and re-creating included |
| Admin.OverlappingAgrees | internal/transport/adminhttp/handler.go:216-230 | over every interleaving of requests all agrees throughout exactly when every call and every forgetting is harmless at its moment |
| Admin.ApartCoherent | internal/transport/adminhttp/handler.go:216-230 | it does when no provider is created again before its key is forgotten, and coherence is full once nothing is left to forget |
| Admin.RemovalPersistedFirst | internal/application/catalog/service.go:180-191 | why removals apply first: the other order loses the key |
| Admin.LateForgetting | internal/transport/adminhttp/handler.go:216-230 | the run of overlapping requests in which a stored key is taken out of memory |
| Admin.OldKeyInherited | internal/transport/adminhttp/handler.go:216-230 | the run in which a provider created again serves with the deleted one's key |
| Continuation.AssistantMessage | internal/translator/response_state.go:170-184 | the loop keeps texts and tool calls and reports whether that was all |
| Continuation.ReplyKeeps | internal/translator/response_state.go:170-184 | the reply is the assistant's texts and calls, all of them in order, or none; it is everything exactly if there was nothing else |
| Continuation.RequestContinuesChain | internal/translator/response_state.go:75-126 | after any turns: upstream gets this turn's instructions, the inputs and replies behind it in order, and this turn's input; all those replies can be said again |
| Continuation.ResolvesExactly | internal/translator/response_state.go:75-126 | when a request is resolved and why not otherwise, and what its plan carries on |
| Continuation.ContinuableMeansSayable | internal/translator/response_state.go:128-184 | a record is continuable exactly when its reply and all behind it are texts and tool calls |
| Continuation.ConversationsWereCreated | internal/translator/conversation_manager.go:58-95 | every conversation begins with the items it was created with, at most twenty |
| Continuation.PersistWrites | internal/translator/response_state.go:128-168 | when persisting succeeds, and what it leaves under each id, also when it fails half way |
| Continuation.PayloadShows | internal/translator/response_state.go:147-168 | a stored response is served as the one persisted, with all its content to be seen in order |
| TranscriptCodec.MarshalBlock | internal/domain/responsestate/codec.go:69-94 | computes the wire block, or refuses the kinds that have none |
| TranscriptCodec.UnmarshalBlock | internal/domain/responsestate/codec.go:96-125 | the recursive loop computes the block or refuses |
| TranscriptCodec.BlockRoundTrip | internal/domain/responsestate/codec.go:69-125 | however deeply nested: stored exactly when of a storable kind with valid arguments; read back without alternative texts and with arguments compacted, the same exactly when it was like that |
| TranscriptCodec.StoredNames | internal/domain/responsestate/codec.go:69-125 | the name each kind is stored under, and what cannot be read back |
| TranscriptCodec.MessagesRoundTrip | internal/domain/responsestate/codec.go:30-67 | the same for whole transcripts |
| TranscriptCodec.StoredAgain | internal/domain/responsestate/codec.go:30-67 | what was loaded can always be stored again and then loads exactly |
| TranscriptCodec.BuiltIsSpoken | internal/translator/response_state.go:75-184 | the transcripts built from requests and replies are those of the continuation chain, message for message |
| TranscriptCodec.ItemsExactly | internal/protocol/openai/responses_decode.go:206-326 | a request is read exactly if all its items are, and becomes one message for each, in order, of which nothing is lost |
| TranscriptCodec.BuiltTranscriptsSurvive | internal/protocol/openai/responses_decode.go:206-326 | every such transcript is saved exactly when the replies' arguments are valid, and loads exactly when all arguments are compact, compacted otherwise |
| TranscriptCodec.SpacesAreLost | internal/domain/responsestate/codec.go:26-49 | the request whose arguments come back without their space |

## Left out

- TranslationPairs.ChatToGemini: supposes distinct, non-empty call ids, because a reader of Gemini chunks merges calls it cannot tell apart.
- TranslationPairs.MessagesToGemini: supposes distinct, non-empty ids and block starts without text or tool input, which the Messages API sends empty.
- TranslationPairs.MessagesToChat: supposes block starts without text or tool input.
- TranslationPairs.MessagesToResponses: covers the stream; its persistence is proved for the Gemini transform only, which shares that code.
- ChatReading.DecoderHears: supposes nothing after `[DONE]`, which the decoder does not guard against.
- GeminiToResponses.TransformTheorem: agreement leaves out the record's `background` flag; its `store` flag is shown to differ.
- RealtimeSession.SessionBridge.Server: after a failure the state of the two translating machines is not specified, since the session ends.
- LiveDecoder.StreamDecoder.Decode: the fields after a refused message are not specified, since the session ends.
- RealtimeEncoder.ServerEncoder.EncodeEvent: the fields after a refused event are not specified, since the session ends.
- Continuation.RequestContinuesChain: sequential; concurrent turns on one conversation may lose updates, which the code does not prevent.
- Admin.OverlappingAgrees: service calls are atomic and a rollback does not fail; a catalog change and a key change at the same time are not interleaved step by step.
- ResponseStore.EncodeOutput: search calls and citations of buffered responses, which no stream carries, are left out.
- MessagesReading.ReadableExactly: streams with thinking blocks are covered in one direction only, by MessagesReading.DecoderHears; the decoder accepts silent thinking blocks it never shows in any order.
- TranscriptCodec.BuiltTranscriptsSurvive: texts are sequences of characters; bytes that are not UTF-8, which JSON printing replaces, do not occur.
- JSON parsing and printing: wire values are datatypes, and which texts are objects, valid or how they are reprinted are arbitrary functions.
- Event and usage metadata, which no stream decoder sets, and the limits of the refusal event buffer.
- Time stamps, the obfuscation field, retention times except as a kind, and deadlines except as a flag.
- Search calls, citations and media in buffered Responses output; only texts, calls and the reasoning marker are modelled there.
- The transport under the streams: I/O errors of readers and writers, HTTP, TLS and the WebSocket handshake.
- The order in which the store lists providers, URL parsing and trimming of names; the model takes them as arbitrary predicates or as done.
- Resource encryption, SQL text and migrations; stores are maps whose writes succeed or fail.
- The messages in background records, of which status, continuability and payload are modelled.
- Request option mapping, content checks of Realtime client events beyond ordering and tool results (two flags per event), OAuth and the admin pages.
