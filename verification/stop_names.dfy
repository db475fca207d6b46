/** How each protocol names the end of an answer, told over whole streams and apart from the functions that
    map the names. */
module StopNames {
  import opened Llm
  import C = Canonical
  import G = GeminiDecoder
  import P = GeminiDecoderProof
  import U = ShownUsage
  import GE = GeminiEncoder
  import CS = ChatStream
  import CR = ChatReading
  import MS = MessagesStream
  import MR = MessagesReading

  // ---------------------------------------------------------------- Gemini

  const FILTERED := {"SAFETY", "RECITATION", "BLOCKLIST", "PROHIBITED_CONTENT", "SPII"}

  const GEMINI_NAMES := {"STOP", "MAX_TOKENS"} + FILTERED

  /** The stop a finished stream has: which name stands for which, and a call makes `STOP` a tool use. */
  predicate GeminiStopNamed(name: string, calls: bool, stop: StopReason) {
    && (stop == ContentFilter <==> name in FILTERED)
    && (stop == MaxTokens <==> name == "MAX_TOKENS")
    && (stop == ToolUse <==> name == "STOP" && calls)
    && (stop == EndTurn <==> name == "STOP" && !calls)
    && stop != StopSequence && stop != Unknown
  }

  function GeminiName(frame: G.Frame): string
    requires U.Finishes(frame)
  {
    frame.chunk.candidates[0].finishReason
  }

  /** The first name in a stream is the one that counts, and it is a known one. */
  lemma {:induction false} GeminiStops(json: Json, frames: seq<G.Frame>) returns (k: nat)
    requires G.Read(json, frames).Some? && G.Read(json, frames).value.stop.Some?
    ensures k < |frames| && U.Finishes(frames[k]) && GeminiName(frames[k]) in GEMINI_NAMES
    ensures forall j :: 0 <= j < k ==> !U.Finishes(frames[j])
    ensures var r := G.Read(json, frames).value; GeminiStopNamed(GeminiName(frames[k]), r.doc.calls != [], r.stop.value)
  {
    hide G.AddParts;
    var init, last := frames[..|frames| - 1], frames[|frames| - 1];
    if G.Read(json, init).value.stop.Some? {
      k := GeminiStops(json, init);
      StopStays(json, G.Read(json, init).value, last);
    } else {
      k := |frames| - 1;
      U.ReadingReports(json, init);
      forall j | 0 <= j < k ensures !U.Finishes(frames[j]) {
        assert frames[j] == init[j];
      }
      StopArises(json, G.Read(json, init).value, last);
    }
  }

  lemma StopStays(json: Json, r: G.Reading, frame: G.Frame)
    requires r.stop.Some? && G.ReadFrame(json, r, frame).Some?
    ensures G.ReadFrame(json, r, frame).value.stop == r.stop && G.ReadFrame(json, r, frame).value.doc == r.doc
  {
    hide G.AddParts;
  }

  lemma StopArises(json: Json, r: G.Reading, frame: G.Frame)
    requires r.stop.None? && G.ReadFrame(json, r, frame).Some? && G.ReadFrame(json, r, frame).value.stop.Some?
    ensures U.Finishes(frame) && GeminiName(frame) in GEMINI_NAMES
    ensures var t := G.ReadFrame(json, r, frame).value;
            GeminiStopNamed(GeminiName(frame), t.doc.calls != [], t.stop.value)
  {
    hide G.AddParts;
  }

  /** The chunk with another finish reason. */
  function Renamed(chunk: G.Chunk, name: string): G.Chunk
    requires |chunk.candidates| == 1
  {
    chunk.(candidates := [chunk.candidates[0].(finishReason := name)])
  }

  /** Behind any stream: naming a chunk's finish makes the decoder refuse it exactly if the name is unknown. */
  lemma GeminiNamesAccepted(json: Json, frames: seq<G.Frame>, chunk: G.Chunk, name: string)
    requires |chunk.candidates| == 1 && name != ""
    ensures G.DecodeFrames(json, frames + [G.Data(Renamed(chunk, name))]).ok <==>
            G.DecodeFrames(json, frames + [G.Data(Renamed(chunk, ""))]).ok && name in GEMINI_NAMES
  {
    hide G.DecodeParts;
    assert (frames + [G.Data(Renamed(chunk, name))])[..|frames|] == frames;
    assert (frames + [G.Data(Renamed(chunk, ""))])[..|frames|] == frames;
  }

  /** The name a stop is written under. */
  lemma GeminiStopWritten(json: Json, events: seq<Event>, reason: StopReason, sequence: string)
    requires GE.EncodeAll(json, events + [ResponseStop(reason, sequence)]).ok
    ensures var written := GE.EncodeAll(json, events + [ResponseStop(reason, sequence)]).state.written;
            && written != [] && U.Finishes(written[|written| - 1])
            && var name := GeminiName(written[|written| - 1]);
               && (name == "MAX_TOKENS" <==> reason == MaxTokens) && (name == "SAFETY" <==> reason == ContentFilter)
               && (name == "STOP" <==> reason in {EndTurn, StopSequence, ToolUse})
  {
    assert (events + [ResponseStop(reason, sequence)])[..|events|] == events;
  }

  // ---------------------------------------------------------------- Chat

  predicate ChatStopNamed(name: string, stop: StopReason) {
    && (stop == EndTurn <==> name == "stop")
    && (stop == MaxTokens <==> name == "length")
    && (stop == ToolUse <==> name in {"tool_calls", "function_call"})
    && (stop == ContentFilter <==> name == "content_filter")
    && stop != StopSequence
  }

  /** The finish reason named last. */
  function LastName(choices: seq<CS.Choice>, before: Option<string>): Option<string> {
    if choices == [] then before
    else
      var last := choices[|choices| - 1];
      if last.finish.Some? then last.finish else LastName(choices[..|choices| - 1], before)
  }

  function ChatName(frames: seq<CS.Frame>): Option<string> {
    if frames == [] then None
    else
      var last, before := frames[|frames| - 1], ChatName(frames[..|frames| - 1]);
      if last.Data? then LastName(last.chunk.choices, before) else before
  }

  predicate NamesStop(name: Option<string>, stop: Option<StopReason>) {
    (name.Some? <==> stop.Some?) && (stop.Some? ==> stop.value != Unknown && ChatStopNamed(name.value, stop.value))
  }

  lemma CallsKeepPending(r: CR.Reading, calls: seq<CS.ToolCallPart>)
    ensures CR.ReadCalls(r, calls).pending == r.pending && CR.ReadCalls(r, calls).stop == r.stop
  {
  }

  lemma {:induction false} ChoicesName(r: CR.Reading, choices: seq<CS.Choice>, before: Option<string>)
    requires CR.ReadChoices(r, choices).Some? && NamesStop(before, r.pending)
    ensures NamesStop(LastName(choices, before), CR.ReadChoices(r, choices).value.pending)
    ensures CR.ReadChoices(r, choices).value.stop == r.stop
  {
    hide CR.ReadCalls;
    if choices != [] {
      var init, last := choices[..|choices| - 1], choices[|choices| - 1];
      ChoicesName(r, init, before);
      var t := CR.ReadChoices(r, init).value;
      CallsKeepPending(if last.content.Some? then t.(text := t.text + last.content.value) else t, last.calls);
    }
  }

  lemma {:induction false} ChatPending(frames: seq<CS.Frame>)
    requires CR.Read(frames).Some?
    ensures CR.Read(frames).value.stop.None? ==> NamesStop(ChatName(frames), CR.Read(frames).value.pending)
    ensures CR.Read(frames).value.stop.Some? ==> NamesStop(ChatName(frames), CR.Read(frames).value.stop)
  {
    hide CR.ReadChoices;
    if frames != [] {
      var init, last := frames[..|frames| - 1], frames[|frames| - 1];
      ChatPending(init);
      if last.Data? {
        var r := CR.Read(init).value;
        var t := if r.started then r else r.(started := true, id := last.chunk.id, model := last.chunk.model);
        ChoicesName(if last.chunk.usage.Some? then t.(usage := CS.DecodeUsage(last.chunk.usage.value)) else t,
                    last.chunk.choices, ChatName(init));
      }
    }
  }

  /** A finished stream stops as the name given last says. */
  lemma ChatStops(frames: seq<CS.Frame>)
    requires CR.Read(frames).Some? && CR.Read(frames).value.stop.Some?
    ensures ChatName(frames).Some? && ChatStopNamed(ChatName(frames).value, CR.Read(frames).value.stop.value)
  {
    ChatPending(frames);
  }

  /** Behind any stream: a choice that names a finish is refused exactly if the name is unknown. */
  lemma ChatNamesAccepted(frames: seq<CS.Frame>, id: string, model: string, choice: CS.Choice, name: string)
    ensures var named := CS.Data(CS.Chunk(id, model, [choice.(finish := Some(name))], None));
            var plain := CS.Data(CS.Chunk(id, model, [choice.(finish := None)], None));
            CS.DecodeFrames(frames + [named]).ok <==>
            CS.DecodeFrames(frames + [plain]).ok
            && name in {"stop", "length", "tool_calls", "function_call", "content_filter"}
  {
    hide CS.HearCalls, CS.HearContent;
    var n, p := choice.(finish := Some(name)), choice.(finish := None);
    assert (frames + [CS.Data(CS.Chunk(id, model, [n], None))])[..|frames|] == frames;
    assert (frames + [CS.Data(CS.Chunk(id, model, [p], None))])[..|frames|] == frames;
    assert [n][..0] == [] && [p][..0] == [];
  }

  /** The name a stop is written under, in the last choice before `[DONE]`. */
  lemma ChatStopWritten(u: bool, events: seq<Event>, reason: StopReason, sequence: string)
    requires CS.EncodeAll(u, events + [ResponseStop(reason, sequence)]).ok
    ensures var before := CS.EncodeAll(u, events).state.written;
            var written := CS.EncodeAll(u, events + [ResponseStop(reason, sequence)]).state.written;
            && |written| > |before| && written[..|before|] == before && written[|written| - 1] == CS.Done
            && written[|before|].Data? && |written[|before|].chunk.choices| == 1
            && written[|before|].chunk.choices[0].finish.Some?
            && var name := written[|before|].chunk.choices[0].finish.value;
               && (name == "stop" <==> reason in {EndTurn, StopSequence}) && (name == "length" <==> reason == MaxTokens)
               && (name == "tool_calls" <==> reason == ToolUse) && (name == "content_filter" <==> reason == ContentFilter)
  {
    assert (events + [ResponseStop(reason, sequence)])[..|events|] == events;
  }

  // ---------------------------------------------------------------- Messages

  predicate MessagesStopNamed(name: string, stop: StopReason) {
    && (stop == EndTurn <==> name == "end_turn") && (stop == MaxTokens <==> name == "max_tokens")
    && (stop == StopSequence <==> name == "stop_sequence") && (stop == ToolUse <==> name == "tool_use")
    && (stop == ContentFilter <==> name == "refusal")
  }

  const MESSAGES_NAMES := {"end_turn", "max_tokens", "stop_sequence", "tool_use", "refusal"}

  function MessagesName(frames: seq<MS.Frame>): Option<string> {
    if frames == [] then None
    else
      var last := frames[|frames| - 1];
      if last.MessageDelta? && last.stopReason != "" then Some(last.stopReason) else MessagesName(frames[..|frames| - 1])
  }

  /** The frames before the message stopped. */
  function BeforeStop(frames: seq<MS.Frame>): seq<MS.Frame> {
    if frames == [] then []
    else
      var init := frames[..|frames| - 1];
      if BeforeStop(init) != init then BeforeStop(init) else if frames[|frames| - 1].MessageStop? then init else frames
  }

  lemma {:induction false} MessagesPending(frames: seq<MS.Frame>)
    requires MR.Read(frames).Some?
    ensures var r := MR.Read(frames).value;
            && (r.pending.Some? <==> MessagesName(frames).Some?)
            && (r.pending.Some? ==>
                  r.pending.value != Unknown && MessagesStopNamed(MessagesName(frames).value, r.pending.value))
  {
    hide MR.ReadStart, MR.ReadPiece;
    if frames != [] {
      var init, last := frames[..|frames| - 1], frames[|frames| - 1];
      MessagesPending(init);
      if !last.MessageDelta? {
        PieceKeepsPending(MR.Read(init).value, last);
      }
    }
  }

  lemma PieceKeepsPending(r: MR.Reading, frame: MS.Frame)
    requires MR.ReadFrame(r, frame).Some? && !frame.MessageDelta?
    ensures MR.ReadFrame(r, frame).value.pending == r.pending
  {
  }

  /** A stopped stream stops as the name given last before its end says. */
  lemma {:induction false} MessagesStops(frames: seq<MS.Frame>)
    requires MR.Read(frames).Some? && MR.Read(frames).value.stop.Some?
    ensures var name := MessagesName(BeforeStop(frames));
            name.Some? && MessagesStopNamed(name.value, MR.Read(frames).value.stop.value)
  {
    hide MR.ReadFrame;
    var init, last := frames[..|frames| - 1], frames[|frames| - 1];
    if MR.Read(init).value.stop.Some? {
      MessagesStops(init);
      MessageStaysStopped(MR.Read(init).value, last);
      StoppedBefore(init);
    } else {
      MessageStops(MR.Read(init).value, last);
      NotStoppedBefore(init);
      MessagesPending(init);
    }
  }

  lemma MessageStaysStopped(r: MR.Reading, frame: MS.Frame)
    requires r.stop.Some? && MR.ReadFrame(r, frame).Some?
    ensures MR.ReadFrame(r, frame).value.stop == r.stop
  {
  }

  lemma MessageStops(r: MR.Reading, frame: MS.Frame)
    requires r.stop.None? && MR.ReadFrame(r, frame).Some? && MR.ReadFrame(r, frame).value.stop.Some?
    ensures frame.MessageStop? && MR.ReadFrame(r, frame).value.stop == r.pending
  {
  }

  lemma {:induction false} NotStoppedBefore(frames: seq<MS.Frame>)
    requires MR.Read(frames).Some? && MR.Read(frames).value.stop.None?
    ensures BeforeStop(frames) == frames
  {
    hide MR.ReadFrame;
    if frames != [] {
      var init, last := frames[..|frames| - 1], frames[|frames| - 1];
      RunningBefore(MR.Read(init).value, last);
      NotStoppedBefore(init);
    }
  }

  lemma RunningBefore(r: MR.Reading, frame: MS.Frame)
    requires MR.ReadFrame(r, frame).Some? && MR.ReadFrame(r, frame).value.stop.None?
    ensures r.stop.None? && !frame.MessageStop?
  {
  }

  lemma {:induction false} StoppedBefore(frames: seq<MS.Frame>)
    requires MR.Read(frames).Some? && MR.Read(frames).value.stop.Some?
    ensures |BeforeStop(frames)| < |frames|
  {
    hide MR.ReadFrame;
    var init, last := frames[..|frames| - 1], frames[|frames| - 1];
    if MR.Read(init).value.stop.Some? {
      StoppedBefore(init);
    } else {
      MessageStops(MR.Read(init).value, last);
      NotStoppedBefore(init);
    }
  }

  /** Behind any stream that is accepted: a stop reason is refused exactly if its name is unknown. */
  lemma MessagesNamesAccepted(frames: seq<MS.Frame>, name: string, sequence: Option<string>, usage: MS.WireUsage)
    requires MS.DecodeFrames(frames).ok
    ensures MS.DecodeFrames(frames + [MS.MessageDelta(name, sequence, usage)]).ok <==> name == "" || name in MESSAGES_NAMES
  {
    assert (frames + [MS.MessageDelta(name, sequence, usage)])[..|frames|] == frames;
  }

  /** The name a stop is written under, and the sequence that caused it. */
  lemma MessagesStopWritten(events: seq<Event>, reason: StopReason, sequence: string)
    requires MS.EncodeAll(events + [ResponseStop(reason, sequence)]).ok
    ensures var before := MS.EncodeAll(events).state.written;
            var written := MS.EncodeAll(events + [ResponseStop(reason, sequence)]).state.written;
            && |written| == |before| + 2 && written[..|before|] == before
            && written[|before|].MessageDelta? && written[|before| + 1] == MS.MessageStop
            && MessagesStopNamed(written[|before|].stopReason, reason)
            && (written[|before|].stopSequence.Some? <==> sequence != "")
            && (sequence != "" ==> written[|before|].stopSequence.value == sequence)
  {
    assert (events + [ResponseStop(reason, sequence)])[..|events|] == events;
  }
}
