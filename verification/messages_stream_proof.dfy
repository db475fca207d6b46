/** Decoding what the Messages encoder wrote, event by event. */
module MessagesRoundTrip {
  import opened Llm
  import C = Canonical
  import opened MessagesStream

  /** A stream without its usage reports. */
  function Plain(events: seq<Event>): seq<Event> {
    if events == [] then []
    else
      var last := events[|events| - 1];
      Plain(events[..|events| - 1]) + if last.UsageReport? then [] else [last]
  }

  lemma PlainSnoc(events: seq<Event>, e: Event)
    ensures Plain(events + [e]) == Plain(events) + if e.UsageReport? then [] else [e]
  {}

  /** What decoding gives back for one event. A block that starts with text is answered twice, ids
      and names are not repeated in deltas, and a stop without a sequence shows the last one seen. */
  function Answer(sequence: string, e: Event): seq<Event> {
    match e
    case ContentStart(index, TextBlock(text)) =>
      if text == "" then [e] else [e, TextDelta(index, text)]
    case ToolCallStart(index, ToolCallBlock(id, name, _)) => [ToolCallStart(index, ToolCallBlock(id, name, "{}"))]
    case ToolCallDelta(index, Some(delta)) => [ToolCallDelta(index, Some(ToolDelta("", "", delta.arguments)))]
    case ResponseStop(reason, own) => [ResponseStop(reason, if own == "" then sequence else own)]
    case Failure(Some(error)) =>
      var code := if error.code == "" then "api_error" else error.code;
      [Failure(Some(StreamError(code, error.message, Retryable(code))))]
    case UsageReport(_) => []
    case _ => [e]
  }

  function NextSequence(sequence: string, e: Event): string {
    if e.ResponseStop? && e.sequence != "" then e.sequence else sequence
  }

  function LastSequence(events: seq<Event>): string {
    if events == [] then ""
    else NextSequence(LastSequence(events[..|events| - 1]), events[|events| - 1])
  }

  function Answers(events: seq<Event>): seq<Event> {
    if events == [] then []
    else
      var before := events[..|events| - 1];
      Answers(before) + Answer(LastSequence(before), events[|events| - 1])
  }

  ghost predicate Heard(e: Encoder, d: Decoder) {
    DecodeFrames(e.written) == Outcome(true, d) && d.thinking == {}
  }

  lemma HeardWrite(e: Encoder, d: Decoder, frame: Frame)
    requires Heard(e, d) && DecodeFrame(d, frame).ok && DecodeFrame(d, frame).state.thinking == {}
    ensures Heard(Write(e, frame), DecodeFrame(d, frame).state)
  {}

  lemma StopRoundTrip(reason: StopReason)
    requires EncodeStop(reason).Some?
    ensures EncodeStop(reason).value != "" && DecodeStop(EncodeStop(reason).value) == reason && reason != Unknown
  {
  }

  lemma AnswerStart(e: Encoder, d: Decoder, event: Event) returns (t: Decoder)
    requires Heard(e, d) && Encode(e, event).ok && (event.ContentStart? || event.ResponseStart?)
    ensures Heard(Encode(e, event).state, t) && t.sequence == d.sequence
    ensures Plain(t.emitted) == Plain(d.emitted) + Answer(d.sequence, event)
  {
    hide DecodeFrames, Plain;
    if event.ContentStart? {
      var frame := BlockStart(event.index, TextStart(event.block.text));
      HeardWrite(e, d, frame);
      t := DecodeFrame(d, frame).state;
      PlainSnoc(d.emitted, event);
      if event.block.text != "" {
        PlainSnoc(d.emitted + [event], TextDelta(event.index, event.block.text));
      }
    } else {
      var frame := MessageStart(event.id, event.model, ZERO_USAGE);
      HeardWrite(e.(id := event.id, model := event.model, started := true), d, frame);
      t := DecodeFrame(d, frame).state;
      PlainSnoc(d.emitted, event);
      PlainSnoc(d.emitted + [event], UsageReport(Some(t.usage)));
    }
  }

  lemma AnswerStop(e: Encoder, d: Decoder, event: Event) returns (t: Decoder)
    requires Heard(e, d) && Encode(e, event).ok && event.ResponseStop?
    ensures Heard(Encode(e, event).state, t) && t.sequence == NextSequence(d.sequence, event)
    ensures Plain(t.emitted) == Plain(d.emitted) + Answer(d.sequence, event)
    ensures t.emitted == d.emitted + [UsageReport(Some(e.usage.(reasoning := d.usage.reasoning)))] + Answer(d.sequence, event)
    ensures t.usage.reasoning == d.usage.reasoning && t.stopped && t.started == d.started
  {
    hide DecodeFrames, Plain, EncodeStop, DecodeStop;
    StopRoundTrip(event.reason);
    var own := if event.sequence == "" then None else Some(event.sequence);
    var delta := MessageDelta(EncodeStop(event.reason).value, own, WireUsageOf(e.usage));
    HeardWrite(e, d, delta);
    var u := DecodeFrame(d, delta).state;
    HeardWrite(Write(e, delta), u, MessageStop);
    t := DecodeFrame(u, MessageStop).state;
    PlainSnoc(d.emitted, UsageReport(Some(u.usage)));
    PlainSnoc(u.emitted, Answer(d.sequence, event)[0]);
  }

  lemma AnswerOne(e: Encoder, d: Decoder, event: Event) returns (t: Decoder)
    requires Heard(e, d) && Encode(e, event).ok && !event.ResponseStop? && !event.ContentStart? && !event.ResponseStart?
    ensures Heard(Encode(e, event).state, t) && t.sequence == d.sequence && t.usage == d.usage
    ensures t.started == d.started && (t.stopped <==> d.stopped || event.Failure?)
    ensures t.emitted == d.emitted + Answer(d.sequence, event)
    ensures Plain(t.emitted) == Plain(d.emitted) + Answer(d.sequence, event)
  {
    hide DecodeFrames, Plain;
    t := d;
    if event.UsageReport? {
      assert Plain(d.emitted) + [] == Plain(d.emitted) && d.emitted + [] == d.emitted;
    } else {
      var w := Encode(e, event).state.written;
      var frame := w[|w| - 1];
      HeardWrite(e, d, frame);
      t := DecodeFrame(d, frame).state;
      PlainSnoc(d.emitted, Answer(d.sequence, event)[0]);
    }
  }

  /** For every event list the encoder accepts: the decoder accepts what was written and, usage
      aside, gives back exactly the answers. */
  lemma {:induction false} RoundTrip(events: seq<Event>) returns (d: Decoder)
    requires EncodeAll(events).ok
    ensures Heard(EncodeAll(events).state, d)
    ensures Plain(d.emitted) == Answers(events) && d.sequence == LastSequence(events)
  {
    hide Heard, Encode, Answer, NextSequence, Plain;
    if events == [] {
      d := HeardNothing();
    } else {
      var before, last := events[..|events| - 1], events[|events| - 1];
      d := RoundTrip(before);
      var e := EncodeAll(before).state;
      if last.ContentStart? || last.ResponseStart? {
        d := AnswerStart(e, d, last);
        SequenceKept(LastSequence(before), last);
      } else if last.ResponseStop? {
        d := AnswerStop(e, d, last);
      } else {
        d := AnswerOne(e, d, last);
        SequenceKept(LastSequence(before), last);
      }
    }
  }

  lemma HeardNothing() returns (d: Decoder)
    ensures d == INITIAL && Heard(UNSTARTED, d) && Plain(d.emitted) == [] && d.sequence == ""
  {
    d := INITIAL;
  }

  lemma SequenceKept(sequence: string, e: Event)
    requires !e.ResponseStop?
    ensures NextSequence(sequence, e) == sequence
  {
  }

  // ---------------------------------------------------------------- when it is the identity

  /** An event the wire carries without loss. */
  predicate Exact(e: Event) {
    && (e.ContentStart? ==> e.block == TextBlock(""))
    && (e.ToolCallStart? ==> e.block.ToolCallBlock? && e.block.arguments == "{}")
    && (e.ToolCallDelta? && e.delta.Some? ==> e.delta.value.id == "" && e.delta.value.name == "")
    && (e.Failure? && e.error.Some? ==>
          e.error.value.code != "" && e.error.value.retryable == Retryable(e.error.value.code))
  }

  /** Every event is exact, and a stop that names no sequence follows none that did. */
  predicate AllExact(events: seq<Event>) {
    forall k :: 0 <= k < |events| ==> ExactAfter(LastSequence(events[..k]), events[k])
  }

  predicate ExactAfter(sequence: string, e: Event) {
    Exact(e) && (e.ResponseStop? && e.sequence == "" ==> sequence == "")
  }

  lemma AnswerExact(sequence: string, e: Encoder, event: Event)
    requires Encode(e, event).ok
    ensures Answer(sequence, event) == (if event.UsageReport? then [] else [event]) <==> ExactAfter(sequence, event)
    ensures |Answer(sequence, event)| ==
            (if event.UsageReport? then 0
             else if event.ContentStart? && event.block.TextBlock? && event.block.text != "" then 2 else 1)
  {
  }

  function DoubledStarts(events: seq<Event>): nat {
    if events == [] then 0
    else
      var last := events[|events| - 1];
      DoubledStarts(events[..|events| - 1]) +
      if last.ContentStart? && last.block.TextBlock? && last.block.text != "" then 1 else 0
  }

  lemma {:induction false} AnswersLength(events: seq<Event>)
    ensures |Answers(events)| == |Plain(events)| + DoubledStarts(events)
  {
    if events != [] {
      AnswersLength(events[..|events| - 1]);
    }
  }

  lemma AllExactSnoc(events: seq<Event>, e: Event)
    ensures AllExact(events + [e]) <==> AllExact(events) && ExactAfter(LastSequence(events), e)
  {
    hide ExactAfter, LastSequence;
    var all := events + [e];
    assert all[..|events|] == events && all[|events|] == e;
    assert forall k :: 0 <= k < |events| ==> all[..k] == events[..k] && all[k] == events[k];
  }

  /** Sequences of equal halves are equal if and only if the halves are. */
  lemma Halves<T>(a: seq<T>, b: seq<T>, c: seq<T>, d: seq<T>)
    requires |a| == |c|
    ensures a + b == c + d <==> a == c && b == d
  {
    if a + b == c + d {
      assert (a + b)[..|a|] == a && (c + d)[..|a|] == c && (a + b)[|a|..] == b && (c + d)[|a|..] == d;
    }
  }

  lemma {:induction false} AnswersExact(events: seq<Event>)
    requires EncodeAll(events).ok
    ensures Answers(events) == Plain(events) <==> AllExact(events)
  {
    hide Answer, ExactAfter, Encode, AllExact, LastSequence;
    AnswersLength(events);
    if events == [] {
      NothingToAnswer();
    } else {
      var before, last := events[..|events| - 1], events[|events| - 1];
      AnswersExact(before);
      AnswersLength(before);
      AllExactSnoc(before, last);
      assert events == before + [last];
      AnswerExact(LastSequence(before), EncodeAll(before).state, last);
      var answer, own := Answer(LastSequence(before), last), if last.UsageReport? then [] else [last];
      if DoubledStarts(before) == 0 {
        Halves(Answers(before), answer, Plain(before), own);
      }
    }
  }

  lemma NothingToAnswer()
    ensures AllExact([]) && Answers([]) == Plain([])
  {
  }

  /** The decoder undoes the encoder, usage aside, if and only if every event is exact: then the events that
      come back are the events that went in. */
  lemma ExactRoundTrip(events: seq<Event>) returns (d: Decoder)
    requires EncodeAll(events).ok
    ensures Heard(EncodeAll(events).state, d) && (Plain(d.emitted) == Plain(events) <==> AllExact(events))
  {
    d := RoundTrip(events);
    AnswersExact(events);
  }

  /** Block starts with text are what makes the stream longer: by one event each. */
  lemma RoundTripNeedsEmptyStarts(events: seq<Event>) returns (d: Decoder)
    requires EncodeAll(events).ok
    ensures Heard(EncodeAll(events).state, d)
    ensures |Plain(d.emitted)| == |Plain(events)| + DoubledStarts(events)
  {
    d := RoundTrip(events);
    AnswersLength(events);
  }

  /** A block that starts with text comes back as a block that starts with it and a delta that repeats
      it, so the text is read twice. */
  lemma StartTextIsDoubled(index: int, text: string) returns (d: Decoder)
    requires text != ""
    ensures Heard(Encode(UNSTARTED, ContentStart(index, TextBlock(text))).state, d)
    ensures d.emitted == [ContentStart(index, TextBlock(text)), TextDelta(index, text)]
  {
    hide DecodeFrames;
    var frame := BlockStart(index, TextStart(text));
    var none := HeardNothing();
    HeardWrite(UNSTARTED, none, frame);
    d := DecodeFrame(none, frame).state;
  }

  // ---------------------------------------------------------------- the meaning survives

  /** What a Messages stream can carry of a canonical one. */
  predicate Expressible(e: Event) {
    && (e.ContentStart? ==> e.block == TextBlock(""))
    && !e.ReasoningDelta?
    && (e.ResponseStop? ==> e.reason != Unknown)
  }

  ghost predicate SameMeaning(e: Encoder, m: C.Message, d: Decoder) {
    && Heard(e, d) && d.usage.reasoning == 0
    && d.started == m.started && d.stopped == m.stop.Some?
    && C.Run(d.emitted).Some?
    && C.Run(d.emitted).value == m.(usage := C.Run(d.emitted).value.usage)
    && m.usage == e.usage
  }

  lemma StepMeaning(e: Encoder, m: C.Message, d: Decoder, event: Event) returns (t: Decoder)
    requires SameMeaning(e, m, d) && C.Apply(m, event).Some? && Expressible(event)
    ensures Encode(e, event).ok && SameMeaning(Encode(e, event).state, C.Apply(m, event).value, t)
    ensures event.ResponseStop? ==> C.Run(t.emitted).value.usage == m.usage.(reasoning := 0)
  {
    hide C.Run, Heard, DecodeFrames;
    t := d;
    match event
    case UsageReport(_) => HeardSame(e, Encode(e, event).state, d);
    case ResponseStart(id, model) =>
      var frame := MessageStart(id, model, ZERO_USAGE);
      HeardStep(e.(id := id, model := model, started := true), e, d, frame);
      t := DecodeFrame(d, frame).state;
      C.RunSnoc(d.emitted, event);
      C.RunSnoc(d.emitted + [event], UsageReport(Some(t.usage)));
    case ResponseStop(reason, _) =>
      EncodesStop(reason);
      t := AnswerStop(e, d, event);
      var report := UsageReport(Some(e.usage.(reasoning := 0)));
      C.RunSnoc(d.emitted, report);
      C.RunSnoc(d.emitted + [report], Answer(d.sequence, event)[0]);
    case ContentStart(index, _) =>
      var frame := BlockStart(index, TextStart(""));
      HeardStep(e, e, d, frame);
      t := DecodeFrame(d, frame).state;
      C.RunSnoc(d.emitted, event);
    case TextDelta(_, _) => t := StepAnswered(e, m, d, event);
    case ToolCallStart(_, _) => t := StepAnswered(e, m, d, event);
    case ToolCallDelta(_, _) => t := StepAnswered(e, m, d, event);
    case ContentStop(_) => t := StepAnswered(e, m, d, event);
    case _ =>
  }

  lemma StepAnswered(e: Encoder, m: C.Message, d: Decoder, event: Event) returns (t: Decoder)
    requires SameMeaning(e, m, d) && C.Apply(m, event).Some?
    requires event.TextDelta? || event.ToolCallStart? || event.ToolCallDelta? || event.ContentStop?
    ensures Encode(e, event).ok && SameMeaning(Encode(e, event).state, C.Apply(m, event).value, t)
  {
    hide C.Run, Heard, DecodeFrames;
    t := AnswerOne(e, d, event);
    C.RunSnoc(d.emitted, Answer(d.sequence, event)[0]);
  }

  lemma EncodesStop(reason: StopReason)
    requires reason != Unknown
    ensures EncodeStop(reason).Some?
  {
  }

  lemma HeardSame(e: Encoder, f: Encoder, d: Decoder)
    requires Heard(e, d) && e.written == f.written
    ensures Heard(f, d)
  {
  }

  lemma HeardStep(e: Encoder, f: Encoder, d: Decoder, frame: Frame)
    requires Heard(f, d) && e.written == f.written
    requires DecodeFrame(d, frame).ok && (d.thinking == {} ==> DecodeFrame(d, frame).state.thinking == {})
    ensures Heard(Write(e, frame), DecodeFrame(d, frame).state)
  {}

  /** For every well-bracketed stream without reasoning: the encoder accepts it, and decoding what it
      wrote gives a stream of the very same message, its blocks and their order included. */
  lemma {:induction false} EncoderKeepsMeaning(events: seq<Event>) returns (d: Decoder)
    requires C.Run(events).Some? && forall k :: 0 <= k < |events| ==> Expressible(events[k])
    ensures EncodeAll(events).ok && SameMeaning(EncodeAll(events).state, C.Run(events).value, d)
    ensures events != [] && events[|events| - 1].ResponseStop? ==>
              C.Run(d.emitted).value.usage == C.Run(events).value.usage.(reasoning := 0)
  {
    hide C.Apply, Encode, SameMeaning, Expressible;
    if events == [] {
      d := SameNothing();
    } else {
      var before, last := events[..|events| - 1], events[|events| - 1];
      d := EncoderKeepsMeaning(before);
      d := StepMeaning(EncodeAll(before).state, C.Run(before).value, d, last);
      if last.ResponseStop? {
        StopKeepsUsage(C.Run(before).value, last);
      }
    }
  }

  lemma StopKeepsUsage(m: C.Message, e: Event)
    requires e.ResponseStop? && C.Apply(m, e).Some?
    ensures C.Apply(m, e).value.usage == m.usage
  {
  }

  lemma SameNothing() returns (d: Decoder)
    ensures SameMeaning(UNSTARTED, C.EMPTY, d)
  {
    d := INITIAL;
  }
}
