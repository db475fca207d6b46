/**
 Whole translations. For each pair of protocols: what the source stream says, read directly, is what
 a reader of the target stream hears, and the translation succeeds exactly when the pair allows it.
 */
module TranslationPairs {
  import opened Llm
  import C = Canonical
  import Gates
  import GD = GeminiDecoder
  import GP = GeminiDecoderProof
  import GE = GeminiEncoder
  import GR = GeminiToResponses
  import CS = ChatStream
  import CR = ChatReading
  import MS = MessagesStream
  import MR = MessagesReading
  import RT = MessagesRoundTrip
  import RE = ResponsesEncoder
  import RM = ResponsesMeaning
  import RC = ResponsesClient
  import RS = ResponseStore
  import SG = SourceGates

  // ---------------------------------------------------------------- thinking and the gates

  predicate Thought(e: Event) {
    e.ReasoningDelta? || (e.ContentStart? && e.block.ReasoningBlock?)
  }

  ghost predicate NoThought(events: seq<Event>) {
    forall k :: 0 <= k < |events| ==> !Thought(events[k])
  }

  ghost predicate NoThinking(items: seq<C.Item>) {
    forall k :: 0 <= k < |items| ==> !items[k].ReasoningItem?
  }

  lemma StepThought(m: C.Message, e: Event)
    requires C.WellFormed(m) && C.Apply(m, e).Some?
    ensures NoThinking(C.Apply(m, e).value.items) <==> NoThinking(m.items) && !Thought(e)
  {
    var n := C.Apply(m, e).value;
    if n.items == m.items {
    } else if |n.items| > |m.items| {
      assert n.items[..|m.items|] == m.items;
      assert n.items[|m.items|].ReasoningItem? == Thought(e);
      assert forall j :: 0 <= j < |m.items| ==> n.items[j] == n.items[..|m.items|][j];
    } else {
      var k := m.blocks[e.index];
      assert n.items[k].ReasoningItem? == m.items[k].ReasoningItem?;
      assert forall j :: 0 <= j < |m.items| && j != k ==> n.items[j] == m.items[j];
      assert e.ReasoningDelta? ==> m.items[k].ReasoningItem?;
    }
  }

  /** A stream mentions thinking exactly when its message holds some. */
  lemma {:induction false} ThoughtShows(events: seq<Event>)
    requires C.Run(events).Some?
    ensures NoThought(events) <==> NoThinking(C.Run(events).value.items)
  {
    hide C.Apply, C.WellFormed;
    if events != [] {
      var before, last := events[..|events| - 1], events[|events| - 1];
      ThoughtShows(before);
      C.RunWellFormed(before);
      StepThought(C.Run(before).value, last);
      assert NoThought(events) <==> NoThought(before) && !Thought(last);
    }
  }

  // ---------------------------------------------------------------- from Gemini

  ghost predicate GeminiToChatSucceeds(json: Json, includeUsage: bool, frames: seq<GD.Frame>) {
    var events := GD.DecodeFrames(json, frames).state.emitted;
    GD.Accepts(json, frames) && Gates.All(Gates.GeminiToOpenAI, events) && CS.EncodeAll(includeUsage, events).ok
  }

  ghost predicate GeminiToMessagesSucceeds(json: Json, frames: seq<GD.Frame>) {
    var events := GD.DecodeFrames(json, frames).state.emitted;
    GD.Accepts(json, frames) && Gates.All(Gates.GeminiToAnthropic, events) && MS.EncodeAll(events).ok
  }

  ghost predicate Finished(r: Option<GD.Reading>) {
    r.Some? && r.value.stop.Some?
  }

  /** What decoding a finished Gemini stream yields. */
  lemma FromGemini(json: Json, frames: seq<GD.Frame>) returns (m: C.Message)
    requires Finished(GD.Read(json, frames))
    ensures GD.Accepts(json, frames) && GP.AllEmittable(GD.DecodeFrames(json, frames).state.emitted)
    ensures C.Run(GD.DecodeFrames(json, frames).state.emitted) == Some(m) && C.WellFormed(m)
    ensures GP.Means(m, GD.Read(json, frames).value) && m.started
    ensures m.text == C.TextOf(m.items) && m.done == m.calls
  {
    hide C.Run, GD.Read, GD.DecodeFrames, C.TextOf, C.WellFormed;
    GP.DecoderMeansReading(json, frames);
    GP.DecoderEmits(json, frames);
    var s := GD.DecodeFrames(json, frames).state;
    m := C.Run(s.emitted).value;
    C.RunWellFormed(s.emitted);
  }

  /** No finish reason names a stop sequence. */
  lemma {:induction false} GeminiStops(json: Json, frames: seq<GD.Frame>)
    requires GD.Read(json, frames).Some?
    ensures GD.Read(json, frames).value.stop != Some(StopSequence)
  {
    hide GD.AddParts;
    if frames != [] {
      GeminiStops(json, frames[..|frames| - 1]);
    }
  }

  /** Gemini to Chat succeeds exactly when there is no thinking, and then the Chat chunks say the same
      text, the same calls in the same order and the same stop. */
  lemma GeminiToChat(json: Json, includeUsage: bool, frames: seq<GD.Frame>)
    requires Finished(GD.Read(json, frames))
    ensures var read := GD.Read(json, frames).value;
            var written := CR.Read(CS.EncodeAll(includeUsage, GD.DecodeFrames(json, frames).state.emitted).state.written);
            && (GeminiToChatSucceeds(json, includeUsage, frames) <==> NoThinking(read.doc.items))
            && (NoThinking(read.doc.items) ==>
                  && written.Some?
                  && written.value.id == read.id && written.value.model == read.model
                  && written.value.text == C.TextOf(read.doc.items)
                  && written.value.calls == read.doc.calls
                  && written.value.stop == read.stop)
  {
    hide C.Run, GD.Read, GD.DecodeFrames, C.TextOf, CS.EncodeAll, CR.Read, C.WellFormed;
    var m := FromGemini(json, frames);
    var events := GD.DecodeFrames(json, frames).state.emitted;
    ThoughtShows(events);
    GeminiStops(json, frames);
    if NoThinking(m.items) {
      CR.EncoderTells(includeUsage, events);
    } else {
      var k :| 0 <= k < |events| && Thought(events[k]);
      assert !Gates.GeminiToOpenAI(events[k]);
    }
  }

  /** Gemini to Messages succeeds exactly when there is no thinking, no chunk counted thoughts and
      nothing was filtered; what was written then decodes to the message that was read. */
  lemma GeminiToMessages(json: Json, frames: seq<GD.Frame>) returns (d: MS.Decoder, n: C.Message)
    requires Finished(GD.Read(json, frames))
    ensures var read, events := GD.Read(json, frames).value, GD.DecodeFrames(json, frames).state.emitted;
            var carried := NoThinking(read.doc.items) && SG.GeminiUncounted(frames) && read.stop != Some(ContentFilter);
            && (GeminiToMessagesSucceeds(json, frames) <==> carried)
            && (carried ==>
                  && MS.DecodeFrames(MS.EncodeAll(events).state.written) == MS.Outcome(true, d) && d.stopped
                  && C.Run(d.emitted) == Some(n)
                  && n.id == read.id && n.model == read.model && GP.DocOf(n) == read.doc
                  && n.text == C.TextOf(read.doc.items) && n.done == read.doc.calls && n.stop == read.stop)
  {
    hide C.Run, GD.Read, GD.DecodeFrames, C.TextOf, MS.EncodeAll, MS.DecodeFrames, C.WellFormed;
    var m := FromGemini(json, frames);
    n := m;
    var events := GD.DecodeFrames(json, frames).state.emitted;
    GateIntoMessages(events, m);
    SG.GeminiCounts(json, frames);
    d := MS.INITIAL;
    if Gates.All(Gates.GeminiToAnthropic, events) {
      d := RT.EncoderKeepsMeaning(events);
      n := C.Run(d.emitted).value;
    }
  }

  lemma GateIntoMessages(events: seq<Event>, m: C.Message)
    requires C.Run(events) == Some(m) && GP.AllEmittable(events)
    ensures Gates.All(Gates.GeminiToAnthropic, events) <==>
            NoThinking(m.items) && Gates.All(Gates.NoReasoningUsage, events) && m.stop != Some(ContentFilter)
  {
    hide C.Run;
    ThoughtShows(events);
    if m.stop == Some(ContentFilter) {
      var k := GR.StopComesFromEvent(events);
    }
    forall k | 0 <= k < |events|
      ensures Gates.GeminiToAnthropic(events[k]) <==>
              !Thought(events[k]) && Gates.NoReasoningUsage(events[k])
              && !(events[k].ResponseStop? && events[k].reason == ContentFilter)
      ensures events[k].ResponseStop? ==> m.stop == Some(events[k].reason)
    {
      if events[k].ResponseStop? {
        GR.StopOfRun(events, k);
      }
    }
  }

  // ---------------------------------------------------------------- from Chat

  ghost predicate ChatToGeminiSucceeds(json: Json, frames: seq<CS.Frame>) {
    var events := CS.DecodeFrames(frames).state.emitted;
    CS.Accepts(frames) && Gates.All(Gates.OpenAIToGemini, events) && GE.EncodeAll(json, events).ok
  }

  ghost predicate ChatToMessagesSucceeds(frames: seq<CS.Frame>) {
    var events := CS.DecodeFrames(frames).state.emitted;
    CS.Accepts(frames) && Gates.All(Gates.OpenAIToAnthropic, events) && MS.EncodeAll(events).ok
  }

  /** A Chat stream that was read to its `[DONE]` and says nothing more. */
  ghost predicate Done(frames: seq<CS.Frame>) {
    CR.EndsAtDone(frames) && CR.Read(frames).Some? && CR.Read(frames).value.stop.Some?
  }

  lemma FromChat(frames: seq<CS.Frame>) returns (m: C.Message)
    requires Done(frames)
    ensures CS.Accepts(frames) && CS.DecodeFrames(frames).ok && CR.AllEmittable(CS.DecodeFrames(frames).state.emitted)
    ensures C.Run(CS.DecodeFrames(frames).state.emitted) == Some(m)
    ensures CR.Says(m, CR.Read(frames).value) && m.done == m.calls
  {
    hide C.Run, CR.Read, CS.DecodeFrames;
    CR.DecoderEmits(frames);
    m := CR.DecoderHears(frames);
  }

  /** Chat to Gemini, for calls a Gemini reader can tell apart: it succeeds exactly when all arguments
      are JSON objects, and then the Gemini chunks say the same text, the same calls in the same order,
      their arguments reprinted, and the same stop up to `STOP`. */
  lemma ChatToGemini(json: Json, frames: seq<CS.Frame>)
    requires Done(frames) && GE.Distinct(CR.Read(frames).value.calls)
    ensures var read := CR.Read(frames).value;
            var written := GD.Read(json, GE.EncodeAll(json, CS.DecodeFrames(frames).state.emitted).state.written);
            && (ChatToGeminiSucceeds(json, frames) <==> GE.ObjectArguments(json, read.calls))
            && (GE.ObjectArguments(json, read.calls) ==>
                  && written.Some?
                  && written.value.id == read.id && written.value.model == read.model
                  && C.TextOf(written.value.doc.items) == read.text
                  && written.value.doc.calls == GE.Printed(json, read.calls)
                  && written.value.stop == Some(GE.GeminiStop(read.stop.value, read.calls)))
  {
    hide C.Run, CR.Read, CS.DecodeFrames, GE.EncodeAll, GD.Read, C.TextOf, GE.Printed, GE.Distinct, GE.ObjectArguments,
         GE.SameHead, GE.OpenTools, CS.Accepts;
    var m := FromChat(frames);
    var events := CS.DecodeFrames(frames).state.emitted;
    var r := GE.EncoderTells(json, events);
  }

  /** Chat to Messages succeeds exactly when no chunk counted reasoning; what was written then decodes to
      the message that was read. */
  lemma ChatToMessages(frames: seq<CS.Frame>) returns (d: MS.Decoder, n: C.Message)
    requires Done(frames)
    ensures var read, events := CR.Read(frames).value, CS.DecodeFrames(frames).state.emitted;
            && (ChatToMessagesSucceeds(frames) <==> SG.ChatUncounted(frames))
            && MS.DecodeFrames(MS.EncodeAll(events).state.written) == MS.Outcome(true, d) && d.stopped
            && C.Run(d.emitted) == Some(n)
            && n.id == read.id && n.model == read.model && n.text == read.text
            && n.calls == read.calls && n.done == read.calls && n.stop == read.stop
  {
    hide C.Run, CR.Read, CS.DecodeFrames, MS.EncodeAll, MS.DecodeFrames, CS.Accepts;
    var m := FromChat(frames);
    SG.ChatCounts(frames);
    d := RT.EncoderKeepsMeaning(CS.DecodeFrames(frames).state.emitted);
    n := C.Run(d.emitted).value;
  }

  // ---------------------------------------------------------------- from Messages

  ghost predicate MessagesToChatSucceeds(includeUsage: bool, frames: seq<MS.Frame>) {
    var events := MS.DecodeFrames(frames).state.emitted;
    MS.Accepts(frames) && Gates.All(Gates.AnthropicToOpenAI, events) && CS.EncodeAll(includeUsage, events).ok
  }

  ghost predicate MessagesToGeminiSucceeds(json: Json, frames: seq<MS.Frame>) {
    var events := MS.DecodeFrames(frames).state.emitted;
    MS.Accepts(frames) && Gates.All(Gates.AnthropicToGemini, events) && GE.EncodeAll(json, events).ok
  }

  /** A Messages stream that was read to its end and carries no text in block starts. */
  ghost predicate Complete(r: Option<MR.Reading>) {
    r.Some? && r.value.stop.Some? && r.value.doubled == 0
  }

  lemma FromMessages(frames: seq<MS.Frame>) returns (m: C.Message)
    requires Complete(MR.Read(frames))
    ensures MS.Accepts(frames) && MS.DecodeFrames(frames).ok && MR.AllEmittable(MS.DecodeFrames(frames).state.emitted)
    ensures C.Run(MS.DecodeFrames(frames).state.emitted) == Some(m) && m.started
    ensures MR.SameContent(MS.DecodeFrames(frames).state, m, MR.Read(frames).value)
    ensures C.WellFormed(m) && MR.SameThoughts(m, MR.Read(frames).value)
  {
    hide C.Run, MR.Read, MS.DecodeFrames, MR.SameBlocks, MR.SameThoughts;
    MR.DecoderEmits(frames);
    m := MR.DecoderHears(frames);
    C.RunWellFormed(MS.DecodeFrames(frames).state.emitted);
  }

  /** Messages to Chat succeeds exactly when nothing is thought and no cache write counted, and then the
      Chat chunks say the same text, the same calls in the same order and the same stop up to `stop`. */
  lemma MessagesToChat(includeUsage: bool, frames: seq<MS.Frame>)
    requires Complete(MR.Read(frames))
    ensures var read, events := MR.Read(frames).value, MS.DecodeFrames(frames).state.emitted;
            var written := CR.Read(CS.EncodeAll(includeUsage, events).state.written);
            && (MessagesToChatSucceeds(includeUsage, frames) <==> SG.ForChat(frames))
            && (SG.ForChat(frames) ==>
                  && written.Some?
                  && written.value.id == read.id && written.value.model == read.model
                  && written.value.text == read.text && written.value.calls == read.calls
                  && written.value.stop == Some(CR.ChatStop(read.stop.value)))
  {
    hide C.Run, CR.Read, MR.Read, MS.DecodeFrames, CS.EncodeAll, MS.Accepts, C.WellFormed;
    var m := FromMessages(frames);
    var events := MS.DecodeFrames(frames).state.emitted;
    SG.ChatPasses(frames);
    if Gates.All(Gates.AnthropicToOpenAI, events) {
      CR.EncoderTells(includeUsage, events);
    }
  }

  /** Messages to Gemini, for calls a Gemini reader can tell apart: it succeeds exactly when no thought comes
      at all, no cache write was counted and all arguments are JSON objects, and then the Gemini chunks say the same
      text and stop, and the calls in the order their blocks were completed. */
  lemma MessagesToGemini(json: Json, frames: seq<MS.Frame>)
    requires Complete(MR.Read(frames)) && GE.Distinct(MR.Read(frames).value.done)
    ensures var read, events := MR.Read(frames).value, MS.DecodeFrames(frames).state.emitted;
            var written := GD.Read(json, GE.EncodeAll(json, events).state.written);
            var carried := SG.ForGemini(frames) && GE.ObjectArguments(json, read.done);
            && (MessagesToGeminiSucceeds(json, frames) <==> carried)
            && (carried ==>
                  && written.Some?
                  && written.value.id == read.id && written.value.model == read.model
                  && C.TextOf(written.value.doc.items) == read.text
                  && written.value.doc.calls == GE.Printed(json, read.done)
                  && written.value.stop == Some(GE.GeminiStop(read.stop.value, read.done)))
  {
    hide C.Run, MR.Read, MS.DecodeFrames, GE.EncodeAll, GD.Read, C.TextOf, GE.Printed, GE.Distinct, GE.ObjectArguments,
         GE.SameHead, GE.OpenTools, MS.Accepts;
    var m := FromMessages(frames);
    var events := MS.DecodeFrames(frames).state.emitted;
    SG.GeminiPasses(frames);
    if Gates.All(Gates.AnthropicToGemini, events) {
      var r := GE.EncoderTells(json, events);
    }
  }

  // ---------------------------------------------------------------- into a Responses output

  /** Calls as a reader of a Responses output sees them. */
  function SeenCalls(calls: seq<C.Call>): seq<RS.CallSeen> {
    if calls == [] then []
    else
      var last := calls[|calls| - 1];
      SeenCalls(calls[..|calls| - 1]) + [RS.CallSeen(last.id, last.name, OrEmptyObject(last.arguments))]
  }

  lemma {:induction false} OutputCallsTo(c: RE.Config, m: C.Message, n: nat)
    requires C.WellFormed(m) && C.Numbered(m.items, |m.calls|) && n <= |m.items|
    ensures C.CountCalls(m.items[..n]) <= |m.calls|
    ensures RS.CallsOf(RM.Output(c, m)[..n]) == SeenCalls(m.calls[..C.CountCalls(m.items[..n])])
  {
    hide C.WellFormed, C.Numbered;
    if n > 0 {
      OutputCallsTo(c, m, n - 1);
      CR.CallNumber(m.items, |m.calls|, n);
      OutputCallsStep(c, m, n);
    }
  }

  lemma OutputCallsStep(c: RE.Config, m: C.Message, n: nat)
    requires C.WellFormed(m) && 0 < n <= |m.items|
    requires C.CountCalls(m.items[..n]) == C.CountCalls(m.items[..n - 1]) + if m.items[n - 1].CallItem? then 1 else 0
    requires C.CountCalls(m.items[..n]) <= |m.calls|
    requires m.items[n - 1].CallItem? ==> m.items[n - 1].call == C.CountCalls(m.items[..n - 1])
    requires RS.CallsOf(RM.Output(c, m)[..n - 1]) == SeenCalls(m.calls[..C.CountCalls(m.items[..n - 1])])
    ensures RS.CallsOf(RM.Output(c, m)[..n]) == SeenCalls(m.calls[..C.CountCalls(m.items[..n])])
  {
    hide C.CountCalls, SeenCalls, RS.CallsOf;
    assert RM.Output(c, m)[..n] == RM.Output(c, m)[..n - 1] + [RM.Rendered(c, m, n - 1)];
    RS.OutputSnoc(RM.Output(c, m)[..n - 1], RM.Rendered(c, m, n - 1));
    if m.items[n - 1].CallItem? {
      var k := m.items[n - 1].call;
      SeenSnoc(m.calls[..k], m.calls[k]);
      assert m.calls[..k + 1] == m.calls[..k] + [m.calls[k]];
    } else {
      assert RS.CallsOf(RM.Output(c, m)[..n - 1]) + [] == RS.CallsOf(RM.Output(c, m)[..n - 1]);
    }
  }

  lemma SeenSnoc(calls: seq<C.Call>, last: C.Call)
    ensures SeenCalls(calls + [last]) ==
            SeenCalls(calls) + [RS.CallSeen(last.id, last.name, OrEmptyObject(last.arguments))]
  {
    assert (calls + [last])[..|calls|] == calls;
  }

  /** The function calls of an output are the calls of the message, in order. */
  lemma OutputCalls(c: RE.Config, events: seq<Event>)
    requires C.Run(events).Some?
    ensures C.WellFormed(C.Run(events).value)
    ensures RS.CallsOf(RM.Output(c, C.Run(events).value)) == SeenCalls(C.Run(events).value.calls)
  {
    hide C.Run, C.WellFormed, C.Numbered, C.CountCalls, RS.CallsOf, SeenCalls;
    var m := C.Run(events).value;
    C.RunWellFormed(events);
    C.RunNumbered(events);
    OutputCallsTo(c, m, |m.items|);
    C.NumberedPrefix(m.items, |m.calls|, |m.items|);
    assert m.items[..|m.items|] == m.items && m.calls[..|m.calls|] == m.calls;
    assert RM.Output(c, m)[..|m.items|] == RM.Output(c, m);
  }

  ghost predicate MessagesToResponsesSucceeds(c: RE.Config, frames: seq<MS.Frame>) {
    var events := MS.DecodeFrames(frames).state.emitted;
    && MS.Accepts(frames) && (forall k :: 0 <= k < |events| ==> Gates.AnthropicToResponses(events[k], c.refusal))
    && RE.AcceptsAll(c, events)
  }

  /** Messages to Responses, thinking included: it succeeds exactly when a filtered stream finds the
      refusal mode on, and then the output shows the calls that were read, in order, their text, and item for
      item the message that was heard: its texts, as refusals if they are, and each block's thinking. */
  lemma MessagesToResponses(c: RE.Config, frames: seq<MS.Frame>) returns (m: C.Message)
    requires Complete(MR.Read(frames))
    ensures var read, s := MR.Read(frames).value, RE.EncodeAll(c, MS.DecodeFrames(frames).state.emitted);
            var carried := read.stop == Some(ContentFilter) ==> c.refusal;
            && (MessagesToResponsesSucceeds(c, frames) <==> carried)
            && (carried ==>
                  && s.stopped && s.blocks == map[]
                  && s.id == RE.NormalizeID(read.id) && s.model == read.model && s.usage == read.usage
                  && RS.CallsOf(s.output) == SeenCalls(read.calls)
                  && s.allText == (if c.refusal then "" else read.text)
                  && C.WellFormed(m) && m.text == read.text && MR.SameThoughts(m, read) && s.output == RM.Output(c, m))
  {
    hide C.Run, MR.Read, MS.DecodeFrames, MS.Accepts, C.WellFormed, RE.AcceptsAll, RE.EncodeAll, RS.CallsOf, SeenCalls,
         MR.SameThoughts, RM.Output;
    m := FromMessages(frames);
    var events := MS.DecodeFrames(frames).state.emitted;
    GateIntoResponses(events, m, c.refusal);
    if forall k :: 0 <= k < |events| ==> Gates.AnthropicToResponses(events[k], c.refusal) {
      RM.EncoderMirrors(c, events);
      OutputCalls(c, events);
      NothingLeftOpen(events);
      RM.FinishedOutput(c, RE.EncodeAll(c, events), m);
      NoBlocks(c, RE.EncodeAll(c, events), m);
    }
  }

  /** A Messages stream that breaks off with an error, after a part that can be read, is translated in either
      mode: the Responses stream ends with one failed response that shows the error. */
  lemma ErrorToResponses(c: RE.Config, frames: seq<MS.Frame>, code: string, message: string)
    requires var r := MR.Read(frames); r.Some? && r.value.started && r.value.stop.None? && r.value.doubled == 0
    ensures var all := frames + [MS.ErrorOut(code, message)];
            var before := RE.EncodeAll(c, MS.DecodeFrames(frames).state.emitted).written;
            var written := RE.EncodeAll(c, MS.DecodeFrames(all).state.emitted).written;
            && MessagesToResponsesSucceeds(c, all)
            && |written| == |before| + 1 && written[..|before|] == before
            && RC.ShowsError(written[|before|].body, StreamError(code, message, MS.Retryable(code)))
  {
    hide C.Run, MR.Read, MS.DecodeFrames, C.WellFormed, RE.EncodeAll, RM.Mirrors, RE.AcceptsAll, MR.SameThoughts, MR.SameBlocks,
         RC.ShowsError, RE.Encode, MS.Retryable;
    var m := MR.DecoderHears(frames);
    MR.DecoderEmits(frames);
    var d := MS.DecodeFrames(frames).state;
    var e := Failure(Some(StreamError(code, message, MS.Retryable(code))));
    ErrorDecoded(frames, code, message);
    GateIntoResponses(d.emitted, m, c.refusal);
    RM.EncoderMirrors(c, d.emitted);
    RunningAlike(c, RE.EncodeAll(c, d.emitted), m);
    RC.ErrorShown(c, d.emitted, StreamError(code, message, MS.Retryable(code)));
    AcceptsOneMore(c, d.emitted, e);
  }

  lemma ErrorDecoded(frames: seq<MS.Frame>, code: string, message: string)
    requires MS.DecodeFrames(frames).ok
    ensures MS.Accepts(frames + [MS.ErrorOut(code, message)])
    ensures MS.DecodeFrames(frames + [MS.ErrorOut(code, message)]).state.emitted ==
            MS.DecodeFrames(frames).state.emitted + [Failure(Some(StreamError(code, message, MS.Retryable(code))))]
  {
    assert (frames + [MS.ErrorOut(code, message)])[..|frames|] == frames;
  }

  lemma RunningAlike(c: RE.Config, s: RE.State, m: C.Message)
    requires RM.Mirrors(c, s, m)
    ensures s.started == m.started && s.stopped == m.stop.Some?
  {
  }

  lemma AcceptsOneMore(c: RE.Config, events: seq<Event>, e: Event)
    requires RE.AcceptsAll(c, events) && RE.Encode(c, RE.EncodeAll(c, events), e).ok
    ensures RE.AcceptsAll(c, events + [e])
  {
    assert (events + [e])[..|events|] == events;
  }

  lemma NothingLeftOpen(events: seq<Event>)
    requires C.Run(events).Some? && C.Run(events).value.stop.Some?
    ensures C.Run(events).value.open == {}
  {
    hide C.Run;
    C.RunWellFormed(events);
  }

  lemma NoBlocks(c: RE.Config, s: RE.State, m: C.Message)
    requires RM.Mirrors(c, s, m) && m.open == {}
    ensures s.blocks == map[]
  {
    assert forall i :: i !in s.blocks;
  }

  lemma GateIntoResponses(events: seq<Event>, m: C.Message, refusal: bool)
    requires C.Run(events) == Some(m) && MR.AllEmittable(events)
    ensures (forall k :: 0 <= k < |events| ==> Gates.AnthropicToResponses(events[k], refusal)) <==>
            (m.stop == Some(ContentFilter) ==> refusal)
  {
    hide C.Run;
    forall k | 0 <= k < |events|
      ensures Gates.AnthropicToResponses(events[k], refusal) <==>
              (events[k].ResponseStop? && events[k].reason == ContentFilter ==> refusal)
      ensures events[k].ResponseStop? ==> m.stop == Some(events[k].reason)
    {
      if events[k].ResponseStop? {
        GR.StopOfRun(events, k);
      }
    }
    if m.stop.Some? {
      var k := GR.StopComesFromEvent(events);
    }
  }
}
