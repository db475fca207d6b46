/** Which canonical events each pair of protocols lets through. Event metadata, which no stream
    decoder ever sets, is not part of the model. */
module Gates {
  import opened Llm

  predicate PlainUsage(e: Event) {
    e.UsageReport? && e.usage.Some? ==> e.usage.value.cacheWrite == 0
  }

  predicate NoReasoningUsage(e: Event) {
    e.UsageReport? && e.usage.Some? ==> e.usage.value.reasoning == 0
  }

  predicate PortableStop(reason: StopReason, allowContentBlock: bool) {
    reason != Unknown && (reason == ContentFilter ==> allowContentBlock)
  }

  predicate ValidGemini(e: Event, allowContentBlock: bool, allowReasoning: bool) {
    && PlainUsage(e)
    && (e.ReasoningDelta? ==> allowReasoning)
    && !e.Failure?
    && (e.ContentStart? ==>
          match e.block
          case TextBlock(_) => true
          case ToolCallBlock(_, _, _) => true
          case ReasoningBlock(_, signature, redacted) => allowReasoning && signature == "" && redacted == ""
          case _ => false)
    && (e.ResponseStop? ==> PortableStop(e.reason, allowContentBlock))
  }

  predicate GeminiToOpenAI(e: Event) {
    ValidGemini(e, true, false)
  }

  predicate GeminiToResponses(e: Event, allowRefusal: bool) {
    ValidGemini(e, true, true) && (e.ResponseStop? && e.reason == ContentFilter ==> allowRefusal)
  }

  /** What a Responses stream can carry, whoever sent it. */
  predicate IntoResponses(e: Event, allowRefusal: bool) {
    && (e.ContentStart? ==>
          match e.block
          case TextBlock(_) => true
          case ToolCallBlock(_, _, _) => true
          case ReasoningBlock(_, signature, redacted) => signature == "" && redacted == ""
          case _ => false)
    && (e.ResponseStop? ==> PortableStop(e.reason, allowRefusal))
  }

  predicate AnthropicToResponses(e: Event, allowRefusal: bool) {
    IntoResponses(e, allowRefusal) && (e.Failure? ==> e.error.Some?)
  }

  /** The gate from Gemini is the narrower one. */
  lemma GeminiIsCarried(events: seq<Event>, allowRefusal: bool)
    requires forall k :: 0 <= k < |events| ==> GeminiToResponses(events[k], allowRefusal)
    ensures forall k :: 0 <= k < |events| ==> IntoResponses(events[k], allowRefusal)
  {
  }

  /** Shared by both directions into Gemini. */
  predicate IntoGemini(e: Event) {
    && PlainUsage(e)
    && !e.ReasoningDelta? && !e.Failure?
    && (e.ContentStart? ==> e.block.TextBlock? || e.block.ToolCallBlock?)
    && (e.ResponseStop? ==> e.reason != Unknown)
  }

  predicate OpenAIToGemini(e: Event) {
    IntoGemini(e)
  }

  predicate AnthropicToGemini(e: Event) {
    IntoGemini(e)
  }

  predicate GeminiToAnthropic(e: Event) {
    && NoReasoningUsage(e)
    && !e.ReasoningDelta? && !e.Failure?
    && (e.ContentStart? ==> e.block.TextBlock? || e.block.ToolCallBlock?)
    && (e.ResponseStop? ==> PortableStop(e.reason, false))
  }

  predicate OpenAIToAnthropic(e: Event) {
    !e.ReasoningDelta? && NoReasoningUsage(e)
  }

  predicate AnthropicToOpenAI(e: Event) {
    !e.ReasoningDelta? && PlainUsage(e)
  }

  predicate All(gate: Event -> bool, events: seq<Event>) {
    forall k :: 0 <= k < |events| ==> gate(events[k])
  }
}
