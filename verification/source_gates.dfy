/** The gates of the translation pairs, told from the source chunks alone. */
module SourceGates {
  import opened Llm
  import Gates
  import U = UsageTold
  import GD = GeminiDecoder
  import CS = ChatStream
  import MS = MessagesStream

  ghost predicate Uncounted(events: seq<Event>) {
    Gates.All(Gates.NoReasoningUsage, events)
  }

  // ---------------------------------------------------------------- counted reasoning, from Gemini

  predicate GeminiUncounted(frames: seq<GD.Frame>) {
    forall k :: 0 <= k < |frames| ==> ThoughtsUncounted(frames[k])
  }

  predicate ThoughtsUncounted(frame: GD.Frame) {
    frame.Data? && frame.chunk.usage.Some? ==> frame.chunk.usage.value.thoughts == 0
  }

  lemma {:induction false} UncountedReports(events: seq<Event>)
    ensures Uncounted(events) <==> forall k :: 0 <= k < |U.Reports(events)| ==> U.Reports(events)[k].reasoning == 0
  {
    if events != [] {
      var init, last := events[..|events| - 1], events[|events| - 1];
      UncountedReports(init);
      assert Uncounted(events) <==> Uncounted(init) && Gates.NoReasoningUsage(last) by {
        assert forall k :: 0 <= k < |init| ==> events[k] == init[k];
      }
      assert U.Reports(init) + [] == U.Reports(init);
      assert last.UsageReport? && last.usage.Some? ==> U.Reports(events)[|U.Reports(init)|] == last.usage.value;
      assert forall k :: 0 <= k < |U.Reports(init)| ==> U.Reports(events)[k] == U.Reports(init)[k];
    }
  }

  lemma {:induction false} UncountedMetadata(frames: seq<GD.Frame>)
    ensures GeminiUncounted(frames) <==> forall k :: 0 <= k < |U.Metadata(frames)| ==> U.Metadata(frames)[k].thoughts == 0
  {
    if frames != [] {
      var init, last := frames[..|frames| - 1], frames[|frames| - 1];
      UncountedMetadata(init);
      assert GeminiUncounted(frames) <==> GeminiUncounted(init) && ThoughtsUncounted(last);
      assert U.Metadata(init) + [] == U.Metadata(init);
      assert last.Data? && last.chunk.usage.Some? ==> U.Metadata(frames)[|U.Metadata(init)|] == last.chunk.usage.value;
      assert forall k :: 0 <= k < |U.Metadata(init)| ==> U.Metadata(frames)[k] == U.Metadata(init)[k];
    }
  }

  /** The events count no reasoning if and only if the chunks count no thoughts. */
  lemma GeminiCounts(json: Json, frames: seq<GD.Frame>)
    requires GD.DecodeFrames(json, frames).ok
    ensures Uncounted(GD.DecodeFrames(json, frames).state.emitted) <==> GeminiUncounted(frames)
  {
    hide Uncounted, GeminiUncounted, GD.DecodeFrames, U.Reports, U.Metadata;
    U.GeminiReports(json, frames);
    UncountedReports(GD.DecodeFrames(json, frames).state.emitted);
    UncountedMetadata(frames);
  }

  // ---------------------------------------------------------------- counted reasoning, from Chat

  predicate ChatUncounted(frames: seq<CS.Frame>) {
    forall k :: 0 <= k < |frames| ==> ReasoningUncounted(frames[k])
  }

  predicate ReasoningUncounted(frame: CS.Frame) {
    frame.Data? && frame.chunk.usage.Some? ==> frame.chunk.usage.value.reasoning in {None, Some(0)}
  }

  lemma {:induction false} UncountedUsages(frames: seq<CS.Frame>)
    ensures ChatUncounted(frames) <==>
            forall k :: 0 <= k < |U.ChatUsages(frames)| ==> U.ChatUsages(frames)[k].reasoning in {None, Some(0)}
  {
    if frames != [] {
      var init, last := frames[..|frames| - 1], frames[|frames| - 1];
      UncountedUsages(init);
      assert ChatUncounted(frames) <==> ChatUncounted(init) && ReasoningUncounted(last);
      assert U.ChatUsages(init) + [] == U.ChatUsages(init);
      assert last.Data? && last.chunk.usage.Some? ==> U.ChatUsages(frames)[|U.ChatUsages(init)|] == last.chunk.usage.value;
      assert forall k :: 0 <= k < |U.ChatUsages(init)| ==> U.ChatUsages(frames)[k] == U.ChatUsages(init)[k];
    }
  }

  lemma ChatCounts(frames: seq<CS.Frame>)
    requires CS.DecodeFrames(frames).ok
    ensures Uncounted(CS.DecodeFrames(frames).state.emitted) <==> ChatUncounted(frames)
  {
    hide Uncounted, ChatUncounted, CS.DecodeFrames, U.Reports, U.ChatUsages;
    U.ChatReports(frames);
    UncountedReports(CS.DecodeFrames(frames).state.emitted);
    UncountedUsages(frames);
  }

  // ---------------------------------------------------------------- from Messages

  predicate WritesNoCache(usage: MS.WireUsage) {
    usage.cacheWrite in {None, Some(0)}
  }

  predicate Uncached(frame: MS.Frame) {
    && (frame.MessageStart? ==> WritesNoCache(frame.usage))
    && (frame.MessageDelta? ==> WritesNoCache(frame.usage))
  }

  /** Thinking blocks may come, as long as nothing is thought. */
  predicate ForChatFrame(frame: MS.Frame) {
    && Uncached(frame)
    && (frame.BlockStart? && frame.block.ThinkingStart? ==> frame.block.thinking == "")
    && (frame.BlockDelta? && frame.delta.ThinkingPiece? ==> frame.delta.thinking == "")
  }

  /** For Gemini not even an empty thought, and no error. */
  predicate ForGeminiFrame(frame: MS.Frame) {
    && Uncached(frame) && !frame.ErrorOut?
    && (frame.BlockStart? && frame.block.ThinkingStart? ==> frame.block.thinking == "")
    && !(frame.BlockDelta? && frame.delta.ThinkingPiece?)
  }

  predicate ForChat(frames: seq<MS.Frame>) {
    forall k :: 0 <= k < |frames| ==> ForChatFrame(frames[k])
  }

  predicate ForGemini(frames: seq<MS.Frame>) {
    forall k :: 0 <= k < |frames| ==> ForGeminiFrame(frames[k])
  }

  /** What a frame that is accepted makes the decoder emit. */
  function Added(d: MS.Decoder, frame: MS.Frame): seq<Event> {
    match frame
    case MessageStart(id, model, usage) => [ResponseStart(id, model), UsageReport(Some(MS.Merge(d.usage, usage)))]
    case BlockStart(index, TextStart(text)) =>
      [ContentStart(index, TextBlock(text))] + if text == "" then [] else [TextDelta(index, text)]
    case BlockStart(index, ToolUseStart(id, name, input)) =>
      [ToolCallStart(index, ToolCallBlock(id, name, if input == "" || input == "null" then "{}" else input))]
    case BlockStart(index, ThinkingStart(thinking)) =>
      if thinking == "" then [] else [ContentStart(index, ReasoningBlock("", "", "")), ReasoningDelta(index, thinking)]
    case BlockDelta(index, TextPiece(text)) => [TextDelta(index, text)]
    case BlockDelta(index, InputPiece(partial)) => [ToolCallDelta(index, Some(ToolDelta("", "", partial)))]
    case BlockDelta(index, ThinkingPiece(thinking)) =>
      (if index in d.thinkingStarted then [] else [ContentStart(index, ReasoningBlock("", "", ""))]) +
      (if thinking == "" then [] else [ReasoningDelta(index, thinking)])
    case BlockStop(index) => if index in d.thinking && index !in d.thinkingStarted then [] else [ContentStop(index)]
    case MessageDelta(_, _, usage) => [UsageReport(Some(MS.Merge(d.usage, usage)))]
    case MessageStop => if d.pending.None? then [] else [ResponseStop(d.pending.value, d.sequence)]
    case ErrorOut(code, message) => [Failure(Some(StreamError(code, message, MS.Retryable(code))))]
    case _ => []
  }

  lemma FrameAdds(d: MS.Decoder, frame: MS.Frame)
    requires MS.DecodeFrame(d, frame).ok
    ensures MS.DecodeFrame(d, frame).state.emitted == d.emitted + Added(d, frame)
  {
  }

  lemma AllTogether(gate: Event -> bool, before: seq<Event>, added: seq<Event>)
    ensures Gates.All(gate, before + added) <==> Gates.All(gate, before) && Gates.All(gate, added)
  {
    assert forall k :: 0 <= k < |before| ==> (before + added)[k] == before[k];
    assert forall k :: 0 <= k < |added| ==> (before + added)[|before| + k] == added[k];
  }

  lemma AddedForChat(d: MS.Decoder, frame: MS.Frame)
    requires MS.DecodeFrame(d, frame).ok && d.usage.cacheWrite == 0
    ensures Gates.All(Gates.AnthropicToOpenAI, Added(d, frame)) <==> ForChatFrame(frame)
    ensures ForChatFrame(frame) ==> MS.DecodeFrame(d, frame).state.usage.cacheWrite == 0
  {
    var added := Added(d, frame);
    assert Gates.All(Gates.AnthropicToOpenAI, added) <==>
           (|added| > 0 ==> Gates.AnthropicToOpenAI(added[0])) && (|added| > 1 ==> Gates.AnthropicToOpenAI(added[1]));
  }

  lemma ChatFramePasses(d: MS.Decoder, frame: MS.Frame)
    requires MS.DecodeFrame(d, frame).ok && d.usage.cacheWrite == 0
    ensures var t := MS.DecodeFrame(d, frame).state;
            && (Gates.All(Gates.AnthropicToOpenAI, t.emitted) <==>
                  Gates.All(Gates.AnthropicToOpenAI, d.emitted) && ForChatFrame(frame))
            && (ForChatFrame(frame) ==> t.usage.cacheWrite == 0)
  {
    hide MS.DecodeFrame, Added, Gates.All, ForChatFrame;
    FrameAdds(d, frame);
    AllTogether(Gates.AnthropicToOpenAI, d.emitted, Added(d, frame));
    AddedForChat(d, frame);
  }

  /** The gate into Chat passes every event if and only if nothing is thought and no cache write counted. */
  lemma {:induction false} ChatPasses(frames: seq<MS.Frame>)
    requires MS.DecodeFrames(frames).ok
    ensures Gates.All(Gates.AnthropicToOpenAI, MS.DecodeFrames(frames).state.emitted) <==> ForChat(frames)
    ensures ForChat(frames) ==> MS.DecodeFrames(frames).state.usage.cacheWrite == 0
  {
    hide MS.DecodeFrame, ForChatFrame, Gates.All, Added;
    if frames == [] {
      AllOfNothing(Gates.AnthropicToOpenAI);
    } else {
      var init, last := frames[..|frames| - 1], frames[|frames| - 1];
      var d := MS.DecodeFrames(init).state;
      ChatPasses(init);
      assert ForChat(frames) <==> ForChat(init) && ForChatFrame(last);
      if ForChat(init) {
        ChatFramePasses(d, last);
      } else {
        FrameAdds(d, last);
        AllTogether(Gates.AnthropicToOpenAI, d.emitted, Added(d, last));
      }
    }
  }

  lemma AllOfNothing(gate: Event -> bool)
    ensures Gates.All(gate, [])
  {
  }

  lemma AddedForGemini(d: MS.Decoder, frame: MS.Frame)
    requires MS.DecodeFrame(d, frame).ok && d.usage.cacheWrite == 0 && d.pending != Some(Unknown)
    requires d.thinkingStarted == {}
    ensures Gates.All(Gates.AnthropicToGemini, Added(d, frame)) <==> ForGeminiFrame(frame)
    ensures ForGeminiFrame(frame) ==>
              var t := MS.DecodeFrame(d, frame).state;
              t.usage.cacheWrite == 0 && t.thinkingStarted == {} && t.pending != Some(Unknown)
  {
    var added := Added(d, frame);
    assert Gates.All(Gates.AnthropicToGemini, added) <==>
           (|added| > 0 ==> Gates.AnthropicToGemini(added[0])) && (|added| > 1 ==> Gates.AnthropicToGemini(added[1]));
  }

  lemma GeminiFramePasses(d: MS.Decoder, frame: MS.Frame)
    requires MS.DecodeFrame(d, frame).ok && d.usage.cacheWrite == 0 && d.pending != Some(Unknown)
    requires d.thinkingStarted == {}
    ensures var t := MS.DecodeFrame(d, frame).state;
            && (Gates.All(Gates.AnthropicToGemini, t.emitted) <==>
                  Gates.All(Gates.AnthropicToGemini, d.emitted) && ForGeminiFrame(frame))
            && (ForGeminiFrame(frame) ==> t.usage.cacheWrite == 0 && t.thinkingStarted == {} && t.pending != Some(Unknown))
  {
    hide MS.DecodeFrame, Added, Gates.All, ForGeminiFrame;
    FrameAdds(d, frame);
    AllTogether(Gates.AnthropicToGemini, d.emitted, Added(d, frame));
    AddedForGemini(d, frame);
  }

  /** The gate into Gemini passes every event if and only if there is no thought at all, no error, and no
      cache write counted. */
  lemma {:induction false} GeminiPasses(frames: seq<MS.Frame>)
    requires MS.DecodeFrames(frames).ok
    ensures Gates.All(Gates.AnthropicToGemini, MS.DecodeFrames(frames).state.emitted) <==> ForGemini(frames)
    ensures ForGemini(frames) ==>
              var d := MS.DecodeFrames(frames).state;
              d.usage.cacheWrite == 0 && d.thinkingStarted == {} && d.pending != Some(Unknown)
  {
    hide MS.DecodeFrame, ForGeminiFrame, Gates.All, Added;
    if frames == [] {
      AllOfNothing(Gates.AnthropicToGemini);
    } else {
      var init, last := frames[..|frames| - 1], frames[|frames| - 1];
      var d := MS.DecodeFrames(init).state;
      GeminiPasses(init);
      assert ForGemini(frames) <==> ForGemini(init) && ForGeminiFrame(last);
      if ForGemini(init) {
        GeminiFramePasses(d, last);
      } else {
        FrameAdds(d, last);
        AllTogether(Gates.AnthropicToGemini, d.emitted, Added(d, last));
      }
    }
  }
}
