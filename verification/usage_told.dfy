/** The token counts each protocol reports, counter by counter, from the chunks to the events and back. */
module UsageTold {
  import opened Llm
  import C = Canonical
  import Sorting
  import GD = GeminiDecoder
  import GE = GeminiEncoder
  import CS = ChatStream
  import MS = MessagesStream
  import RE = ResponsesEncoder

  /** The usage reports of a stream, in order. */
  function Reports(events: seq<Event>): seq<Usage> {
    if events == [] then []
    else
      var last := events[|events| - 1];
      Reports(events[..|events| - 1]) + if last.UsageReport? && last.usage.Some? then [last.usage.value] else []
  }

  lemma OneMore(events: seq<Event>, e: Event)
    ensures Reports(events + [e]) == Reports(events) + if e.UsageReport? && e.usage.Some? then [e.usage.value] else []
  {
    assert (events + [e])[..|events|] == events;
  }

  lemma Silent(events: seq<Event>, e: Event)
    requires !e.UsageReport?
    ensures Reports(events + [e]) == Reports(events)
  {
    OneMore(events, e);
    assert Reports(events) + [] == Reports(events);
  }

  function LastReport(events: seq<Event>): Usage {
    if Reports(events) == [] then NO_USAGE else Reports(events)[|Reports(events)| - 1]
  }

  // ---------------------------------------------------------------- from Gemini

  function Metadata(frames: seq<GD.Frame>): seq<GD.UsageMetadata> {
    if frames == [] then []
    else
      var last := frames[|frames| - 1];
      Metadata(frames[..|frames| - 1]) +
      if last.Data? && last.chunk.usage.Some? then [last.chunk.usage.value] else []
  }

  predicate FromMetadata(u: Usage, m: GD.UsageMetadata) {
    u.input == m.prompt && u.output == m.candidates && u.reasoning == m.thoughts && u.cacheRead == m.cached && u.cacheWrite == 0
  }

  lemma CloseActiveSilent(s: GD.State)
    ensures Reports(GD.CloseActive(s).emitted) == Reports(s.emitted)
  {
    hide Reports;
    if !s.active.Idle? {
      Silent(s.emitted, ContentStop(s.active.index));
    }
  }

  /** An event behind what closes the active block. */
  lemma OpenSilent(s: GD.State, e: Event)
    requires !e.UsageReport?
    ensures Reports(GD.CloseActive(s).emitted + [e]) == Reports(s.emitted)
  {
    hide Reports;
    CloseActiveSilent(s);
    Silent(GD.CloseActive(s).emitted, e);
  }

  lemma CallSilent(json: Json, s: GD.State, call: GD.FunctionCall)
    ensures Reports(GD.DecodeCall(json, s, call).state.emitted) == Reports(s.emitted)
  {
    hide Reports, GD.CloseActive;
    var id := GD.CallID(s, call);
    var t := GD.EnsureTool(s, id, call.name);
    OpenSilent(s, ToolCallStart(GD.CloseActive(s).nextBlock, ToolCallBlock(id, call.name, "{}")));
    var r := GD.DecodeCall(json, s, call).state;
    if r.emitted != t.emitted {
      Silent(t.emitted, r.emitted[|t.emitted|]);
    }
  }

  lemma PartSilent(json: Json, s: GD.State, p: GD.Part)
    ensures Reports(GD.DecodePart(json, s, p).state.emitted) == Reports(s.emitted)
  {
    hide Reports, GD.CloseActive, GD.DecodeCall;
    var c := GD.CloseActive(s);
    OpenSilent(s, ContentStart(c.nextBlock, ReasoningBlock("", "", "")));
    OpenSilent(s, ContentStart(c.nextBlock, TextBlock("")));
    if p.thought && p.text.Some? {
      var t := GD.EnsureReasoning(s);
      Silent(t.emitted, ReasoningDelta(t.active.index, p.text.value));
    } else if p.text.Some? {
      var t := GD.EnsureText(s);
      Silent(t.emitted, TextDelta(t.active.index, p.text.value));
    }
    if p.call.Some? {
      CallSilent(json, s, p.call.value);
    }
  }

  lemma {:induction false} PartsSilent(json: Json, s: GD.State, parts: seq<GD.Part>)
    ensures Reports(GD.DecodeParts(json, s, parts).state.emitted) == Reports(s.emitted)
  {
    hide Reports, GD.DecodePart;
    if parts != [] {
      PartsSilent(json, s, parts[..|parts| - 1]);
      PartSilent(json, GD.DecodeParts(json, s, parts[..|parts| - 1]).state, parts[|parts| - 1]);
    }
  }

  lemma BeginReports(s: GD.State, chunk: GD.Chunk)
    ensures var before, after := Reports(s.emitted), Reports(GD.Begin(s, chunk).emitted);
            && (chunk.usage.None? ==> after == before)
            && (chunk.usage.Some? ==>
                  && |after| == |before| + 1 && after[..|before|] == before
                  && FromMetadata(after[|before|], chunk.usage.value))
  {
    hide Reports;
    var start := ResponseStart(chunk.responseID, chunk.model);
    Silent(s.emitted, start);
    var t := if s.started then s else GD.Emit(s.(started := true), start);
    if chunk.usage.Some? {
      OneMore(t.emitted, UsageReport(Some(GD.Counts(chunk.usage.value))));
    }
  }

  lemma FinishSilent(s: GD.State, finishReason: string)
    ensures Reports(GD.DecodeFinish(s, finishReason).state.emitted) == Reports(s.emitted)
  {
    hide Reports, GD.CloseActive;
    CloseActiveSilent(s);
    var r := GD.DecodeFinish(s, finishReason);
    var c := GD.CloseActive(s);
    if r.ok && finishReason != "" {
      Silent(c.emitted, r.state.emitted[|c.emitted|]);
    }
  }

  lemma FrameReports(json: Json, s: GD.State, frame: GD.Frame)
    ensures var before, after := Reports(s.emitted), Reports(GD.DecodeFrame(json, s, frame).state.emitted);
            && (!(frame.Data? && frame.chunk.usage.Some?) ==> after == before)
            && (frame.Data? && frame.chunk.usage.Some? ==>
                  && |after| == |before| + 1 && after[..|before|] == before
                  && FromMetadata(after[|before|], frame.chunk.usage.value))
  {
    hide Reports, GD.Begin, GD.DecodeParts, GD.DecodeFinish, FromMetadata;
    if frame.Data? {
      BeginReports(s, frame.chunk);
      var t := GD.Begin(s, frame.chunk);
      if |frame.chunk.candidates| == 1 {
        var c := frame.chunk.candidates[0];
        PartsSilent(json, t, c.parts);
        FinishSilent(GD.DecodeParts(json, t, c.parts).state, c.finishReason);
      }
    }
  }

  /** The reports are the chunks' metadata, one by one. */
  lemma {:induction false} GeminiReports(json: Json, frames: seq<GD.Frame>)
    requires GD.DecodeFrames(json, frames).ok
    ensures var reports := Reports(GD.DecodeFrames(json, frames).state.emitted);
            && |reports| == |Metadata(frames)|
            && forall k :: 0 <= k < |reports| ==> FromMetadata(reports[k], Metadata(frames)[k])
  {
    hide GD.DecodeFrame, Reports, FromMetadata;
    if frames == [] {
      NoReports();
    } else {
      var init, last := frames[..|frames| - 1], frames[|frames| - 1];
      var s := GD.DecodeFrames(json, init).state;
      GeminiReports(json, init);
      FrameReports(json, s, last);
      var before, after := Reports(s.emitted), Reports(GD.DecodeFrames(json, frames).state.emitted);
      forall k | 0 <= k < |after| ensures FromMetadata(after[k], Metadata(frames)[k]) {
        assert k < |before| ==> after[k] == before[k];
      }
    }
  }

  lemma NoReports()
    ensures Reports([]) == []
  {
  }

  // ---------------------------------------------------------------- from Chat

  function ChatUsages(frames: seq<CS.Frame>): seq<CS.ChatUsage> {
    if frames == [] then []
    else
      var last := frames[|frames| - 1];
      ChatUsages(frames[..|frames| - 1]) + if last.Data? && last.chunk.usage.Some? then [last.chunk.usage.value] else []
  }

  /** A count that is absent is zero. */
  predicate FromChatUsage(u: Usage, w: CS.ChatUsage) {
    && u.input == w.prompt && u.output == w.completion && u.cacheWrite == 0
    && (w.reasoning.Some? ==> u.reasoning == w.reasoning.value) && (w.reasoning.None? ==> u.reasoning == 0)
    && (w.cached.Some? ==> u.cacheRead == w.cached.value) && (w.cached.None? ==> u.cacheRead == 0)
  }

  lemma ContentSilent(d: CS.Decoder, content: string)
    ensures Reports(CS.HearContent(d, content).emitted) == Reports(d.emitted)
  {
    hide Reports;
    Silent(d.emitted, ContentStart(d.nextBlock, TextBlock("")));
    var t := CS.OpenText(d);
    Silent(t.emitted, TextDelta(t.textBlock.value, content));
  }

  lemma ChatCallSilent(d: CS.Decoder, c: CS.ToolCallPart)
    ensures Reports(CS.HearCall(d, c).emitted) == Reports(d.emitted)
  {
    hide Reports;
    Silent(d.emitted, ToolCallStart(d.nextBlock, ToolCallBlock(c.id, c.name, "{}")));
    var t := CS.OpenTool(d, c);
    Silent(t.emitted, ToolCallDelta(t.toolBlocks[c.index], Some(ToolDelta("", "", c.arguments))));
  }

  lemma {:induction false} ChatCallsSilent(d: CS.Decoder, calls: seq<CS.ToolCallPart>)
    ensures Reports(CS.HearCalls(d, calls).emitted) == Reports(d.emitted)
  {
    hide Reports, CS.HearCall;
    if calls != [] {
      ChatCallsSilent(d, calls[..|calls| - 1]);
      ChatCallSilent(CS.HearCalls(d, calls[..|calls| - 1]), calls[|calls| - 1]);
    }
  }

  lemma {:induction false} ChoicesSilent(d: CS.Decoder, choices: seq<CS.Choice>)
    ensures Reports(CS.HearChoices(d, choices).state.emitted) == Reports(d.emitted)
  {
    hide Reports, CS.HearContent, CS.HearCalls;
    if choices != [] {
      var b, c := CS.HearChoices(d, choices[..|choices| - 1]).state, choices[|choices| - 1];
      ChoicesSilent(d, choices[..|choices| - 1]);
      if c.content.Some? {
        ContentSilent(b, c.content.value);
      }
      ChatCallsSilent(if c.content.Some? then CS.HearContent(b, c.content.value) else b, c.calls);
    }
  }

  lemma ChatBeginReports(d: CS.Decoder, chunk: CS.Chunk)
    ensures var before, after := Reports(d.emitted), Reports(CS.Begin(d, chunk).emitted);
            && (chunk.usage.None? ==> after == before)
            && (chunk.usage.Some? ==>
                  && |after| == |before| + 1 && after[..|before|] == before
                  && FromChatUsage(after[|before|], chunk.usage.value))
  {
    hide Reports;
    var start := ResponseStart(chunk.id, chunk.model);
    Silent(d.emitted, start);
    var t := if d.started then d else CS.Emit(d.(started := true), start);
    if chunk.usage.Some? {
      OneMore(t.emitted, UsageReport(Some(CS.DecodeUsage(chunk.usage.value))));
    }
  }

  lemma {:induction false} CloseSilent(d: CS.Decoder, indexes: seq<int>)
    ensures Reports(CS.CloseAll(d, indexes).emitted) == Reports(d.emitted)
  {
    hide Reports;
    if indexes != [] {
      CloseSilent(d, indexes[..|indexes| - 1]);
      Silent(CS.CloseAll(d, indexes[..|indexes| - 1]).emitted, ContentStop(indexes[|indexes| - 1]));
    }
  }

  lemma DoneSilent(d: CS.Decoder)
    ensures Reports(CS.Finish(d).state.emitted) == Reports(d.emitted)
  {
    hide Reports, CS.CloseAll, Sorting.Sorted;
    if CS.Finish(d).ok {
      CloseSilent(d.(done := true), Sorting.Sorted(d.openBlocks));
      Silent(CS.CloseAll(d.(done := true), Sorting.Sorted(d.openBlocks)).emitted, ResponseStop(d.pending.value, ""));
    }
  }

  lemma ChatFrameReports(d: CS.Decoder, frame: CS.Frame)
    ensures var before, after := Reports(d.emitted), Reports(CS.DecodeFrame(d, frame).state.emitted);
            && (!(frame.Data? && frame.chunk.usage.Some?) ==> after == before)
            && (frame.Data? && frame.chunk.usage.Some? ==>
                  && |after| == |before| + 1 && after[..|before|] == before
                  && FromChatUsage(after[|before|], frame.chunk.usage.value))
  {
    hide Reports, CS.Begin, CS.HearChoices, CS.Finish, FromChatUsage;
    if frame.Data? {
      ChatBeginReports(d, frame.chunk);
      ChoicesSilent(CS.Begin(d, frame.chunk), frame.chunk.choices);
    } else if frame.Done? {
      DoneSilent(d);
    }
  }

  lemma {:induction false} ChatReports(frames: seq<CS.Frame>)
    requires CS.DecodeFrames(frames).ok
    ensures var reports := Reports(CS.DecodeFrames(frames).state.emitted);
            && |reports| == |ChatUsages(frames)|
            && forall k :: 0 <= k < |reports| ==> FromChatUsage(reports[k], ChatUsages(frames)[k])
  {
    hide CS.DecodeFrame, Reports, FromChatUsage;
    if frames == [] {
      NoReports();
    } else {
      var init, last := frames[..|frames| - 1], frames[|frames| - 1];
      var d := CS.DecodeFrames(init).state;
      ChatReports(init);
      ChatFrameReports(d, last);
      var before, after := Reports(d.emitted), Reports(CS.DecodeFrames(frames).state.emitted);
      forall k | 0 <= k < |after| ensures FromChatUsage(after[k], ChatUsages(frames)[k]) {
        assert k < |before| ==> after[k] == before[k];
      }
    }
  }

  // ---------------------------------------------------------------- from Messages

  /** The usage a frame carries. */
  function Carried(frame: MS.Frame): Option<MS.WireUsage> {
    match frame
    case MessageStart(_, _, usage) => Some(usage)
    case MessageDelta(_, _, usage) => Some(usage)
    case _ => None
  }

  /** The count given last, of those that `pick` finds. */
  function Latest(frames: seq<MS.Frame>, pick: MS.WireUsage -> Option<int>): int {
    if frames == [] then 0
    else
      var carried := Carried(frames[|frames| - 1]);
      if carried.Some? && pick(carried.value).Some? then pick(carried.value).value else Latest(frames[..|frames| - 1], pick)
  }

  function PickInput(w: MS.WireUsage): Option<int> { w.input }

  function PickOutput(w: MS.WireUsage): Option<int> { w.output }

  function PickCacheRead(w: MS.WireUsage): Option<int> { w.cacheRead }

  function PickCacheWrite(w: MS.WireUsage): Option<int> { w.cacheWrite }

  predicate IsLatest(u: Usage, frames: seq<MS.Frame>) {
    && u.input == Latest(frames, PickInput) && u.output == Latest(frames, PickOutput)
    && u.cacheRead == Latest(frames, PickCacheRead) && u.cacheWrite == Latest(frames, PickCacheWrite)
    && u.reasoning == 0
  }

  lemma MessagesFrameReports(d: MS.Decoder, frame: MS.Frame)
    requires MS.DecodeFrame(d, frame).ok
    ensures var t := MS.DecodeFrame(d, frame).state;
            && (Carried(frame).None? ==> t.usage == d.usage)
            && (Carried(frame).Some? ==>
                  t.emitted != [] && t.emitted[|t.emitted| - 1] == UsageReport(Some(t.usage)))
  {
  }

  /** Whatever a stream's last frame is, the counts are the latest given; and if it carries any, the last event
      reports them. */
  lemma {:induction false} MessagesReports(frames: seq<MS.Frame>)
    requires MS.DecodeFrames(frames).ok
    ensures var d := MS.DecodeFrames(frames).state;
            && IsLatest(d.usage, frames)
            && (frames != [] && Carried(frames[|frames| - 1]).Some? ==>
                  d.emitted != [] && d.emitted[|d.emitted| - 1] == UsageReport(Some(d.usage)))
  {
    hide MS.StartBlock, MS.Piece, MS.StopBlock, MS.DecodeStop;
    if frames != [] {
      MessagesReports(frames[..|frames| - 1]);
      MessagesFrameReports(MS.DecodeFrames(frames[..|frames| - 1]).state, frames[|frames| - 1]);
    }
  }

  // ---------------------------------------------------------------- into the streams

  lemma LastOneMore(events: seq<Event>, e: Event)
    ensures LastReport(events + [e]) == if e.UsageReport? && e.usage.Some? then e.usage.value else LastReport(events)
  {
    OneMore(events, e);
  }

  lemma {:induction false} GeminiHolds(json: Json, events: seq<Event>)
    requires GE.EncodeAll(json, events).ok
    ensures GE.EncodeAll(json, events).state.usage == LastReport(events)
  {
    hide LastReport;
    if events == [] {
      NothingReported();
    } else {
      var init, last := events[..|events| - 1], events[|events| - 1];
      GeminiHolds(json, init);
      LastOneMore(init, last);
      assert events == init + [last];
    }
  }

  lemma NothingReported()
    ensures LastReport([]) == NO_USAGE
  {
  }

  /** The finishing chunk carries the counts reported last. */
  lemma GeminiUsageWritten(json: Json, events: seq<Event>, reason: StopReason, sequence: string)
    requires GE.EncodeAll(json, events + [ResponseStop(reason, sequence)]).ok
    ensures var written := GE.EncodeAll(json, events + [ResponseStop(reason, sequence)]).state.written;
            && written != [] && written[|written| - 1].Data? && written[|written| - 1].chunk.usage.Some?
            && FromMetadata(LastReport(events).(cacheWrite := 0), written[|written| - 1].chunk.usage.value)
  {
    hide LastReport;
    assert (events + [ResponseStop(reason, sequence)])[..|events|] == events;
    GeminiHolds(json, events);
  }

  lemma ChatUsageKept(u: bool, s: CS.Encoder, e: Event)
    ensures CS.Encode(u, s, e).state.usage == if e.UsageReport? && e.usage.Some? then e.usage else s.usage
  {
  }

  lemma {:induction false} ChatHolds(u: bool, events: seq<Event>)
    requires CS.EncodeAll(u, events).ok
    ensures CS.EncodeAll(u, events).state.usage == if Reports(events) == [] then None else Some(LastReport(events))
  {
    hide Reports, CS.Encode, LastReport;
    if events == [] {
      NoReports();
    } else {
      var init, last := events[..|events| - 1], events[|events| - 1];
      ChatHolds(u, init);
      ChatUsageKept(u, CS.EncodeAll(u, init).state, last);
      OneMore(init, last);
      LastOneMore(init, last);
      assert events == init + [last];
    }
  }

  /** Before `[DONE]` comes a chunk with the counts reported last, if they were asked for and any were. */
  lemma ChatUsageWritten(u: bool, events: seq<Event>, reason: StopReason, sequence: string)
    requires CS.EncodeAll(u, events + [ResponseStop(reason, sequence)]).ok
    ensures var before := CS.EncodeAll(u, events).state.written;
            var written := CS.EncodeAll(u, events + [ResponseStop(reason, sequence)]).state.written;
            && |written| == |before| + (if u && Reports(events) != [] then 3 else 2)
            && (u && Reports(events) != [] ==>
                  var chunk := written[|before| + 1];
                  && chunk.Data? && chunk.chunk.choices == [] && chunk.chunk.usage.Some?
                  && FromChatUsage(LastReport(events).(cacheWrite := 0), chunk.chunk.usage.value)
                  && (chunk.chunk.usage.value.cached.Some? <==> LastReport(events).cacheRead != 0)
                  && (chunk.chunk.usage.value.reasoning.Some? <==> LastReport(events).reasoning != 0))
  {
    hide LastReport, Reports;
    assert (events + [ResponseStop(reason, sequence)])[..|events|] == events;
    ChatHolds(u, events);
  }

  lemma {:induction false} MessagesHolds(events: seq<Event>)
    requires MS.EncodeAll(events).ok
    ensures MS.EncodeAll(events).state.usage == LastReport(events)
  {
    hide LastReport;
    if events == [] {
      NothingReported();
    } else {
      var init, last := events[..|events| - 1], events[|events| - 1];
      MessagesHolds(init);
      LastOneMore(init, last);
      assert events == init + [last];
    }
  }

  /** The final delta carries every count reported last, but for reasoning, which the wire cannot carry. */
  lemma MessagesUsageWritten(events: seq<Event>, reason: StopReason, sequence: string)
    requires MS.EncodeAll(events + [ResponseStop(reason, sequence)]).ok
    ensures var written := MS.EncodeAll(events + [ResponseStop(reason, sequence)]).state.written;
            && |written| >= 2 && written[|written| - 2].MessageDelta?
            && var w, u := written[|written| - 2].usage, LastReport(events);
               && w.input == Some(u.input) && w.output == Some(u.output)
               && w.cacheRead == Some(u.cacheRead) && w.cacheWrite == Some(u.cacheWrite)
  {
    hide LastReport;
    assert (events + [ResponseStop(reason, sequence)])[..|events|] == events;
    MessagesHolds(events);
  }

  /** A Responses stream holds the counts reported last, whatever else it is fed. */
  lemma {:induction false} ResponsesHolds(c: RE.Config, events: seq<Event>)
    ensures RE.EncodeAll(c, events).usage == LastReport(events)
  {
    hide LastReport;
    if events == [] {
      NothingReported();
    } else {
      var init, last := events[..|events| - 1], events[|events| - 1];
      ResponsesHolds(c, init);
      LastOneMore(init, last);
      assert events == init + [last];
      UsageKept(c, RE.EncodeAll(c, init), last);
    }
  }

  lemma UsageKept(c: RE.Config, s: RE.State, e: Event)
    ensures RE.Encode(c, s, e).state.usage == if e.UsageReport? && e.usage.Some? then e.usage.value else s.usage
  {
    hide RE.WriteAll, RE.ClosingEvents;
    if e.ContentStop? && e.index in s.blocks {
      var b := s.blocks[e.index];
      RE.WriteAllKeeps(s.(blocks := s.blocks - {e.index}), RE.ClosingEvents(c, b));
    }
  }

  /** And the event that ends it, well or not, shows them. */
  lemma ResponsesUsageShown(c: RE.Config, events: seq<Event>, e: Event)
    requires e.ResponseStop? || e.Failure?
    requires RE.Encode(c, RE.EncodeAll(c, events), e).ok
    ensures var written := RE.Encode(c, RE.EncodeAll(c, events), e).state.written;
            && written != []
            && var body := written[|written| - 1].body;
               (body.ResponseCompleted? || body.ResponseIncomplete? || body.ResponseFailed?)
               && body.response.usage == LastReport(events)
  {
    hide LastReport;
    ResponsesHolds(c, events);
  }
}
