/** Which events each encoder takes, in any state, and that a refused event leaves no trace in what was written. */
module EncoderLimits {
  import opened Llm
  import GE = GeminiEncoder
  import CS = ChatStream
  import MS = MessagesStream
  import RE = ResponsesEncoder

  /** Thinking, audio and errors have no place in a Chat stream, nor has an unknown stop. */
  lemma ChatTakes(u: bool, e: CS.Encoder, event: Event)
    ensures CS.Encode(u, e, event).ok <==>
            && !event.ReasoningDelta? && !event.AudioDelta? && !event.Failure?
            && (event.ToolCallStart? ==> event.block.ToolCallBlock?)
            && (event.ToolCallDelta? ==> event.delta.Some? && event.index in e.toolIndexes)
            && (event.ResponseStop? ==> event.reason != Unknown)
    ensures !CS.Encode(u, e, event).ok ==> CS.Encode(u, e, event).state.written == e.written
    ensures event.ContentStart? || event.ContentStop? ==> CS.Encode(u, e, event).state == e
    ensures event.ToolCallStart? && event.block.ToolCallBlock? ==>
              var t := CS.Encode(u, e, event).state;
              && event.index in t.toolIndexes
              && t.toolIndexes[event.index] == (if event.index in e.toolIndexes then e.toolIndexes[event.index] else e.nextTool)
  {
  }

  /** A Gemini stream waits with a call until its block stops, and cannot stop while one is open. */
  lemma GeminiTakes(json: Json, s: GE.State, event: Event)
    ensures GE.Encode(json, s, event).ok <==>
            && !event.ReasoningDelta? && !event.AudioDelta? && !event.Failure?
            && (event.ResponseStart? ==> !s.started)
            && (event.ToolCallStart? ==> event.block.ToolCallBlock?)
            && (event.ToolCallDelta? ==> event.delta.Some? && event.index in s.tools)
            && (event.ContentStop? && event.index in s.tools ==>
                  json.isObject(if s.tools[event.index].arguments == "" then "{}" else s.tools[event.index].arguments))
            && (event.ResponseStop? ==> event.reason != Unknown && s.tools == map[])
    ensures !GE.Encode(json, s, event).ok ==> GE.Encode(json, s, event).state.written == s.written
    ensures event.ContentStart? || event.ToolCallStart? || event.ToolCallDelta? || event.UsageReport? ==>
              GE.Encode(json, s, event).state.written == s.written
  {
  }

  /** A Messages stream takes errors, but no thinking and no audio. */
  lemma MessagesTakes(e: MS.Encoder, event: Event)
    ensures MS.Encode(e, event).ok <==>
            && !event.ReasoningDelta? && !event.AudioDelta?
            && (event.ContentStart? ==> event.block.TextBlock?)
            && (event.ToolCallStart? ==> event.block.ToolCallBlock?)
            && (event.ToolCallDelta? ==> event.delta.Some?)
            && (event.Failure? ==> event.error.Some?)
            && (event.ResponseStop? ==> event.reason != Unknown)
    ensures !MS.Encode(e, event).ok ==> MS.Encode(e, event).state.written == e.written
  {
  }

  /** An error is written as one frame, under a default code if it has none. */
  lemma MessagesErrorWritten(events: seq<Event>, error: StreamError)
    requires MS.EncodeAll(events).ok
    ensures var before, after := MS.EncodeAll(events).state.written, MS.EncodeAll(events + [Failure(Some(error))]).state.written;
            && MS.EncodeAll(events + [Failure(Some(error))]).ok
            && |after| == |before| + 1 && after[..|before|] == before
            && after[|before|].ErrorOut? && after[|before|].message == error.message
            && after[|before|].code == if error.code == "" then "api_error" else error.code
  {
    assert (events + [Failure(Some(error))])[..|events|] == events;
  }

  /** An error read is an error reported, and can be retried exactly if the provider was overloaded or limited the
      rate. */
  lemma MessagesErrorRead(frames: seq<MS.Frame>, code: string, message: string)
    requires MS.DecodeFrames(frames).ok
    ensures var before := MS.DecodeFrames(frames).state.emitted;
            var after := MS.DecodeFrames(frames + [MS.ErrorOut(code, message)]).state;
            && MS.DecodeFrames(frames + [MS.ErrorOut(code, message)]).ok && after.stopped
            && |after.emitted| == |before| + 1 && after.emitted[..|before|] == before
            && after.emitted[|before|].Failure? && after.emitted[|before|].error.Some?
            && var error := after.emitted[|before|].error.value;
               && error.code == code && error.message == message
               && (error.retryable <==> code in {"overloaded_error", "rate_limit_error"})
  {
    assert (frames + [MS.ErrorOut(code, message)])[..|frames|] == frames;
  }

  /** A Responses stream takes content only within a response, pieces only for open blocks of their kind, and a
      stop only when all blocks are closed; a filtered stop needs the refusal mode. */
  lemma ResponsesTakes(c: RE.Config, s: RE.State, event: Event)
    requires forall i :: i in s.blocks ==> s.blocks[i].outputIndex < |s.output|
    ensures RE.Encode(c, s, event).ok <==>
            match event
            case ResponseStart(_, _) => !s.started
            case ContentStart(index, block) =>
              && s.started && !s.stopped && index !in s.blocks
              && (block.TextBlock? || (block.ReasoningBlock? && block.signature == "" && block.redacted == ""))
            case ToolCallStart(index, block) => s.started && !s.stopped && index !in s.blocks && block.ToolCallBlock?
            case TextDelta(index, _) => index in s.blocks && s.blocks[index].kind == RE.TextKind
            case ReasoningDelta(index, _) => index in s.blocks && s.blocks[index].kind == RE.ReasoningKind
            case ToolCallDelta(index, delta) => index in s.blocks && s.blocks[index].kind == RE.ToolKind && delta.Some?
            case ContentStop(index) => index in s.blocks
            case UsageReport(_) => true
            case ResponseStop(reason, _) =>
              && s.started && !s.stopped && s.blocks == map[] && reason != Unknown
              && (reason == ContentFilter ==> c.refusal)
            case Failure(error) => s.started && !s.stopped && error.Some?
            case AudioDelta(_, _, _) => false
  {
    hide RE.WriteAll, RE.ClosingEvents;
    if event.ContentStop? && event.index in s.blocks {
      OutputKept(s.(blocks := s.blocks - {event.index}), RE.ClosingEvents(c, s.blocks[event.index]));
    }
  }

  lemma {:induction false} OutputKept(s: RE.State, bodies: seq<RE.Body>)
    ensures RE.WriteAll(s, bodies).output == s.output
    decreases |bodies|
  {
    if bodies != [] {
      OutputKept(RE.Write(s, bodies[0]), bodies[1..]);
    }
  }
}
