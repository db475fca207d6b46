/** Which usage a Responses client is shown of a Gemini stream: what was reported by the time of the stop. */
module ShownUsage {
  import opened Llm
  import C = Canonical
  import opened GeminiDecoder
  import P = GeminiDecoderProof

  // ---------------------------------------------------------------- in the chunks

  function Finishes(frame: Frame): bool {
    frame.Data? && |frame.chunk.candidates| == 1 && frame.chunk.candidates[0].finishReason != ""
  }

  predicate Finished(frames: seq<Frame>) {
    exists k :: 0 <= k < |frames| && Finishes(frames[k])
  }

  /** The usage a stream reports last. */
  function Reported(frames: seq<Frame>): Usage {
    if frames == [] then NO_USAGE
    else
      var last := frames[|frames| - 1];
      if last.Data? && last.chunk.usage.Some? then Counts(last.chunk.usage.value) else Reported(frames[..|frames| - 1])
  }

  /** The usage it has reported when it finishes, the finishing chunk included. */
  function Shown(frames: seq<Frame>): Usage {
    if frames == [] then NO_USAGE
    else if Finished(frames[..|frames| - 1]) then Shown(frames[..|frames| - 1])
    else Reported(frames)
  }

  // ---------------------------------------------------------------- in the events

  ghost function UsageAtStop(events: seq<Event>): Usage {
    if events == [] then NO_USAGE
    else if events[|events| - 1].ResponseStop? then
      match C.Run(events[..|events| - 1])
      case None => NO_USAGE
      case Some(m) => m.usage
    else UsageAtStop(events[..|events| - 1])
  }

  lemma StopDecides(events: seq<Event>, e: Event)
    requires !e.ResponseStop?
    ensures UsageAtStop(events + [e]) == UsageAtStop(events)
  {
    assert (events + [e])[..|events|] == events;
  }

  lemma StopShows(events: seq<Event>, e: Event)
    requires e.ResponseStop? && C.Run(events + [e]).Some?
    ensures C.Run(events).Some? && UsageAtStop(events + [e]) == C.Run(events + [e]).value.usage
  {
    assert (events + [e])[..|events|] == events;
  }

  /** What is left of a stream after its stop does not change what was shown. */
  lemma {:induction false} ShownForGood(before: seq<Event>, after: seq<Event>)
    requires C.Run(before + after).Some? && C.Run(before).Some? && C.Run(before).value.stop.Some?
    ensures UsageAtStop(before + after) == UsageAtStop(before) && C.Run(before + after).value.stop.Some?
  {
    if after == [] {
      assert before + after == before;
    } else {
      var init, e := after[..|after| - 1], after[|after| - 1];
      assert before + after == (before + init) + [e];
      C.RunPrefix(before + init, [e]);
      ShownForGood(before, init);
      C.RunSnoc(before + init, e);
      StopStays(C.Run(before + init).value, e);
      StopDecides(before + init, e);
    }
  }

  lemma StopStays(m: C.Message, e: Event)
    requires m.stop.Some? && C.Apply(m, e).Some?
    ensures !e.ResponseStop? && C.Apply(m, e).value.stop.Some?
  {
  }

  // ---------------------------------------------------------------- they are the same

  lemma {:induction false} PartsGoOn(json: Json, s: State, parts: seq<Part>)
    ensures DecodeParts(json, s, parts).state.stopped == s.stopped
  {
    if parts != [] {
      PartsGoOn(json, s, parts[..|parts| - 1]);
    }
  }

  /** The frame that finishes a stream emits the stop last. */
  lemma StopIsLast(json: Json, s: State, frame: Frame)
    requires DecodeFrame(json, s, frame).ok && !s.stopped && DecodeFrame(json, s, frame).state.stopped
    ensures var w := DecodeFrame(json, s, frame).state.emitted; w != [] && w[|w| - 1].ResponseStop?
  {
    PartsGoOn(json, Begin(s, frame.chunk), frame.chunk.candidates[0].parts);
  }

  lemma ReadingOne(json: Json, r: Reading, frame: Frame)
    requires ReadFrame(json, r, frame).Some?
    ensures var t := ReadFrame(json, r, frame).value;
            && (t.stop.Some? <==> r.stop.Some? || Finishes(frame))
            && t.usage == if frame.Data? && frame.chunk.usage.Some? then Counts(frame.chunk.usage.value) else r.usage
  {
  }

  lemma {:induction false} ReadingReports(json: Json, frames: seq<Frame>)
    requires Read(json, frames).Some?
    ensures Read(json, frames).value.usage == Reported(frames)
    ensures Read(json, frames).value.stop.Some? <==> Finished(frames)
  {
    hide ReadFrame, Finishes;
    if frames != [] {
      var init, last := frames[..|frames| - 1], frames[|frames| - 1];
      ReadingReports(json, init);
      ReadingOne(json, Read(json, init).value, last);
      assert Finished(frames) <==> Finished(init) || Finishes(last) by {
        assert forall k :: 0 <= k < |init| ==> frames[k] == init[k];
      }
    }
  }

  /** For every readable stream that finishes. */
  lemma {:induction false} ShownAtStop(json: Json, frames: seq<Frame>)
    requires Read(json, frames).Some? && Read(json, frames).value.stop.Some?
    ensures UsageAtStop(DecodeFrames(json, frames).state.emitted) == Shown(frames)
  {
    hide DecodeFrame, C.Run, UsageAtStop, Finished, Reported, ReadFrame, P.Tracks, P.DocOf;
    var init, last := frames[..|frames| - 1], frames[|frames| - 1];
    P.DecoderMeansReading(json, init);
    P.DecoderMeansReading(json, frames);
    ReadingReports(json, init);
    ReadingReports(json, frames);
    var b, r := DecodeFrames(json, init).state, DecodeFrames(json, frames).state;
    if Read(json, init).value.stop.Some? {
      P.FrameGrew(json, b, last);
      ShownAtStop(json, init);
      assert b.emitted + r.emitted[|b.emitted|..] == r.emitted;
      ShownForGood(b.emitted, r.emitted[|b.emitted|..]);
    } else {
      TracksStop(b, C.Run(b.emitted).value);
      TracksStop(r, C.Run(r.emitted).value);
      StopIsLast(json, b, last);
      var before, e := r.emitted[..|r.emitted| - 1], r.emitted[|r.emitted| - 1];
      assert r.emitted == before + [e];
      StopShows(before, e);
    }
  }

  lemma TracksStop(s: State, m: C.Message)
    requires P.Tracks(s, m)
    ensures s.stopped <==> m.stop.Some?
  {
  }
}
