/** Anthropic Messages streams: wire events, the decoder and the encoder. */
module MessagesStream {
  import opened Llm

  datatype WireUsage = WireUsage(input: Option<int>, output: Option<int>, cacheRead: Option<int>, cacheWrite: Option<int>)

  datatype WireBlock =
    | TextStart(text: string)
    | ToolUseStart(id: string, name: string, input: string)
    | ThinkingStart(thinking: string)
    | RedactedStart
    | UnknownStart

  datatype WireDelta =
    | TextPiece(text: string)
    | InputPiece(partial: string)
    | ThinkingPiece(thinking: string)
    | SignaturePiece
    | UnknownPiece

  /** One server-sent event, its data decoded; `NoData` is an event without data. */
  datatype Frame =
    | NoData
    | Malformed
    | Ping
    | MessageStart(id: string, model: string, usage: WireUsage)
    | BlockStart(index: int, block: WireBlock)
    | BlockDelta(index: int, delta: WireDelta)
    | BlockStop(index: int)
    | MessageDelta(stopReason: string, stopSequence: Option<string>, usage: WireUsage)
    | MessageStop
    | ErrorOut(code: string, message: string)
    | UnknownFrame

  function DecodeStop(reason: string): StopReason {
    if reason == "end_turn" then EndTurn
    else if reason == "max_tokens" then MaxTokens
    else if reason == "stop_sequence" then StopSequence
    else if reason == "tool_use" then ToolUse
    else if reason == "refusal" then ContentFilter
    else Unknown
  }

  function EncodeStop(reason: StopReason): Option<string> {
    match reason
    case EndTurn => Some("end_turn")
    case MaxTokens => Some("max_tokens")
    case StopSequence => Some("stop_sequence")
    case ToolUse => Some("tool_use")
    case ContentFilter => Some("refusal")
    case Unknown => None
  }

  predicate Retryable(code: string) {
    code == "overloaded_error" || code == "rate_limit_error"
  }

  function Or(value: Option<int>, otherwise: int): int {
    if value.Some? then value.value else otherwise
  }

  function Merge(u: Usage, w: WireUsage): Usage {
    Usage(Or(w.input, u.input), Or(w.output, u.output), u.reasoning, Or(w.cacheRead, u.cacheRead),
          Or(w.cacheWrite, u.cacheWrite))
  }

  // ---------------------------------------------------------------- the decoder

  datatype Decoder = Decoder(
    started: bool, stopped: bool, usage: Usage, thinking: set<int>, thinkingStarted: set<int>,
    pending: Option<StopReason>, sequence: string, emitted: seq<Event>)

  const INITIAL := Decoder(false, false, NO_USAGE, {}, {}, None, "", [])

  datatype Outcome = Outcome(ok: bool, state: Decoder)

  function Emit(d: Decoder, e: Event): Decoder {
    d.(emitted := d.emitted + [e])
  }

  function ReportUsage(d: Decoder, w: WireUsage): Decoder {
    Emit(d.(usage := Merge(d.usage, w)), UsageReport(Some(Merge(d.usage, w))))
  }

  function StartBlock(d: Decoder, index: int, block: WireBlock): Outcome {
    match block
    case TextStart(text) =>
      var t := Emit(d, ContentStart(index, TextBlock(text)));
      Outcome(true, if text == "" then t else Emit(t, TextDelta(index, text)))
    case ToolUseStart(id, name, input) =>
      Outcome(true, Emit(d, ToolCallStart(index, ToolCallBlock(id, name, if input == "" || input == "null" then "{}" else input))))
    case ThinkingStart(thinking) =>
      var t := d.(thinking := d.thinking + {index});
      if thinking == "" then Outcome(true, t)
      else
        var u := Emit(t.(thinkingStarted := t.thinkingStarted + {index}), ContentStart(index, ReasoningBlock("", "", "")));
        Outcome(true, Emit(u, ReasoningDelta(index, thinking)))
    case RedactedStart => Outcome(true, d.(thinking := d.thinking + {index}))
    case UnknownStart => Outcome(false, d)
  }

  function Piece(d: Decoder, index: int, delta: WireDelta): Outcome {
    match delta
    case TextPiece(text) => Outcome(true, Emit(d, TextDelta(index, text)))
    case InputPiece(partial) => Outcome(true, Emit(d, ToolCallDelta(index, Some(ToolDelta("", "", partial)))))
    case ThinkingPiece(thinking) =>
      if index !in d.thinking then Outcome(false, d)
      else
        var t :=
          if index in d.thinkingStarted then d
          else Emit(d.(thinkingStarted := d.thinkingStarted + {index}), ContentStart(index, ReasoningBlock("", "", "")));
        Outcome(true, if thinking == "" then t else Emit(t, ReasoningDelta(index, thinking)))
    case SignaturePiece => Outcome(index in d.thinking, d)
    case UnknownPiece => Outcome(false, d)
  }

  function StopBlock(d: Decoder, index: int): Decoder {
    if index in d.thinking then
      var t := d.(thinking := d.thinking - {index}, thinkingStarted := d.thinkingStarted - {index});
      if index in d.thinkingStarted then Emit(t, ContentStop(index)) else t
    else Emit(d, ContentStop(index))
  }

  function DecodeFrame(d: Decoder, frame: Frame): Outcome {
    match frame
    case NoData => Outcome(true, d)
    case Malformed => Outcome(false, d)
    case Ping => Outcome(true, d)
    case MessageStart(id, model, usage) =>
      Outcome(true, ReportUsage(Emit(d.(started := true), ResponseStart(id, model)), usage))
    case BlockStart(index, block) => StartBlock(d, index, block)
    case BlockDelta(index, delta) => Piece(d, index, delta)
    case BlockStop(index) => Outcome(true, StopBlock(d, index))
    case MessageDelta(reason, sequence, usage) =>
      var t := if reason == "" then d else d.(pending := Some(DecodeStop(reason)));
      if t.pending == Some(Unknown) && reason != "" then Outcome(false, t)
      else Outcome(true, ReportUsage(if sequence.Some? then t.(sequence := sequence.value) else t, usage))
    case MessageStop =>
      if d.pending.None? || d.pending == Some(Unknown) then Outcome(false, d)
      else Outcome(true, Emit(d.(stopped := true), ResponseStop(d.pending.value, d.sequence)))
    case ErrorOut(code, message) =>
      Outcome(true, Emit(d.(stopped := true), Failure(Some(StreamError(code, message, Retryable(code))))))
    case UnknownFrame => Outcome(false, d)
  }

  function DecodeFrames(frames: seq<Frame>): Outcome {
    if frames == [] then Outcome(true, INITIAL)
    else
      var r := DecodeFrames(frames[..|frames| - 1]);
      if r.ok then DecodeFrame(r.state, frames[|frames| - 1]) else r
  }

  predicate Accepts(frames: seq<Frame>) {
    var r := DecodeFrames(frames);
    r.ok && (r.state.started ==> r.state.stopped)
  }

  lemma {:induction false} FirstFailureStands(frames: seq<Frame>, k: nat)
    requires k <= |frames| && !DecodeFrames(frames[..k]).ok
    ensures DecodeFrames(frames) == DecodeFrames(frames[..k])
  {
    hide DecodeFrame;
    if k < |frames| {
      assert frames[..|frames| - 1][..k] == frames[..k];
      FirstFailureStands(frames[..|frames| - 1], k);
    } else {
      assert frames[..k] == frames;
    }
  }

  /** The locals the decoding closure captures. */
  class StreamDecoder {
    var started: bool
    var stopped: bool
    var usage: Usage
    var thinkingBlocks: set<int>
    var thinkingStarted: set<int>
    var pendingStop: Option<StopReason>
    var pendingSequence: string
    var emitted: seq<Event>

    constructor ()
      ensures Abs() == INITIAL
    {
      started, stopped, usage, thinkingBlocks, thinkingStarted := false, false, NO_USAGE, {}, {};
      pendingStop, pendingSequence, emitted := None, "", [];
    }

    function Abs(): Decoder
      reads this
    {
      Decoder(started, stopped, usage, thinkingBlocks, thinkingStarted, pendingStop, pendingSequence, emitted)
    }

    method Send(e: Event)
      modifies this`emitted
      ensures Abs() == Emit(old(Abs()), e)
    {
      emitted := emitted + [e];
    }

    method MergeUsage(w: WireUsage)
      modifies this
      ensures Abs() == ReportUsage(old(Abs()), w)
    {
      if w.input.Some? {
        usage := usage.(input := w.input.value);
      }
      if w.output.Some? {
        usage := usage.(output := w.output.value);
      }
      if w.cacheRead.Some? {
        usage := usage.(cacheRead := w.cacheRead.value);
      }
      if w.cacheWrite.Some? {
        usage := usage.(cacheWrite := w.cacheWrite.value);
      }
      Send(UsageReport(Some(usage)));
    }

    method DecodeEvent(frame: Frame) returns (ok: bool)
      modifies this
      ensures Outcome(ok, Abs()) == DecodeFrame(old(Abs()), frame)
    {
      ok := true;
      match frame
      case NoData =>
      case Ping =>
      case Malformed => ok := false;
      case UnknownFrame => ok := false;
      case MessageStart(id, model, u) =>
        started := true;
        Send(ResponseStart(id, model));
        MergeUsage(u);
      case BlockStart(index, block) => ok := BeginBlock(index, block);
      case BlockDelta(index, delta) => ok := TakePiece(index, delta);
      case BlockStop(index) => EndBlock(index);
      case MessageDelta(reason, sequence, u) =>
        if reason != "" {
          pendingStop := Some(DecodeStop(reason));
          if pendingStop == Some(Unknown) { return false; }
        }
        if sequence.Some? {
          pendingSequence := sequence.value;
        }
        MergeUsage(u);
      case MessageStop =>
        if pendingStop.None? || pendingStop == Some(Unknown) { return false; }
        stopped := true;
        Send(ResponseStop(pendingStop.value, pendingSequence));
      case ErrorOut(code, message) =>
        stopped := true;
        Send(Failure(Some(StreamError(code, message, Retryable(code)))));
    }

    method BeginBlock(index: int, block: WireBlock) returns (ok: bool)
      modifies this
      ensures Outcome(ok, Abs()) == StartBlock(old(Abs()), index, block)
    {
      match block
      case TextStart(text) =>
        Send(ContentStart(index, TextBlock(text)));
        if text != "" {
          Send(TextDelta(index, text));
        }
        return true;
      case ToolUseStart(id, name, input) =>
        var arguments := input;
        if |arguments| == 0 || arguments == "null" {
          arguments := "{}";
        }
        Send(ToolCallStart(index, ToolCallBlock(id, name, arguments)));
        return true;
      case ThinkingStart(thinking) =>
        thinkingBlocks := thinkingBlocks + {index};
        if thinking == "" { return true; }
        thinkingStarted := thinkingStarted + {index};
        Send(ContentStart(index, ReasoningBlock("", "", "")));
        Send(ReasoningDelta(index, thinking));
        return true;
      case RedactedStart =>
        thinkingBlocks := thinkingBlocks + {index};
        return true;
      case UnknownStart => return false;
    }

    method TakePiece(index: int, delta: WireDelta) returns (ok: bool)
      modifies this
      ensures Outcome(ok, Abs()) == Piece(old(Abs()), index, delta)
    {
      match delta
      case TextPiece(text) =>
        Send(TextDelta(index, text));
        return true;
      case InputPiece(partial) =>
        Send(ToolCallDelta(index, Some(ToolDelta("", "", partial))));
        return true;
      case ThinkingPiece(thinking) =>
        if index !in thinkingBlocks { return false; }
        if index !in thinkingStarted {
          thinkingStarted := thinkingStarted + {index};
          Send(ContentStart(index, ReasoningBlock("", "", "")));
        }
        if thinking != "" {
          Send(ReasoningDelta(index, thinking));
        }
        return true;
      case SignaturePiece => return index in thinkingBlocks;
      case UnknownPiece => return false;
    }

    method EndBlock(index: int)
      modifies this
      ensures Abs() == StopBlock(old(Abs()), index)
    {
      if index in thinkingBlocks {
        thinkingBlocks := thinkingBlocks - {index};
        var begun := index in thinkingStarted;
        thinkingStarted := thinkingStarted - {index};
        if !begun { return; }
      }
      Send(ContentStop(index));
    }
  }

  method Decode(frames: seq<Frame>) returns (ok: bool, events: seq<Event>)
    ensures ok == Accepts(frames) && events == DecodeFrames(frames).state.emitted
  {
    var decoder := new StreamDecoder();
    for k := 0 to |frames|
      invariant Outcome(true, decoder.Abs()) == DecodeFrames(frames[..k])
    {
      assert frames[..k + 1][..k] == frames[..k];
      var decoded := decoder.DecodeEvent(frames[k]);
      if !decoded {
        FirstFailureStands(frames, k + 1);
        return false, decoder.emitted;
      }
    }
    assert frames[..|frames|] == frames;
    return !(decoder.started && !decoder.stopped), decoder.emitted;
  }

  // ---------------------------------------------------------------- the encoder

  datatype Encoder = Encoder(id: string, model: string, started: bool, usage: Usage, written: seq<Frame>)

  const UNSTARTED := Encoder("", "", false, NO_USAGE, [])

  datatype Written = Written(ok: bool, state: Encoder)

  function Write(e: Encoder, frame: Frame): Encoder {
    e.(written := e.written + [frame])
  }

  const ZERO_USAGE := WireUsage(Some(0), Some(0), None, None)

  function WireUsageOf(u: Usage): WireUsage {
    WireUsage(Some(u.input), Some(u.output), Some(u.cacheRead), Some(u.cacheWrite))
  }

  function Encode(e: Encoder, event: Event): Written {
    match event
    case ResponseStart(id, model) =>
      Written(true, Write(e.(id := id, model := model, started := true), MessageStart(id, model, ZERO_USAGE)))
    case ContentStart(index, block) =>
      if block.TextBlock? then Written(true, Write(e, BlockStart(index, TextStart(block.text)))) else Written(false, e)
    case ToolCallStart(index, block) =>
      if block.ToolCallBlock? then Written(true, Write(e, BlockStart(index, ToolUseStart(block.id, block.name, "{}"))))
      else Written(false, e)
    case TextDelta(index, text) => Written(true, Write(e, BlockDelta(index, TextPiece(text))))
    case ToolCallDelta(index, delta) =>
      if delta.None? then Written(false, e)
      else Written(true, Write(e, BlockDelta(index, InputPiece(delta.value.arguments))))
    case ContentStop(index) => Written(true, Write(e, BlockStop(index)))
    case UsageReport(usage) => Written(true, if usage.Some? then e.(usage := usage.value) else e)
    case ResponseStop(reason, sequence) =>
      var stop := EncodeStop(reason);
      if stop.None? then Written(false, e)
      else
        var delta := MessageDelta(stop.value, if sequence == "" then None else Some(sequence), WireUsageOf(e.usage));
        Written(true, Write(Write(e, delta), MessageStop))
    case ReasoningDelta(_, _) => Written(false, e)
    case Failure(error) =>
      if error.None? then Written(false, e)
      else
        var code := if error.value.code == "" then "api_error" else error.value.code;
        Written(true, Write(e, ErrorOut(code, error.value.message)))
    case AudioDelta(_, _, _) => Written(false, e)
  }

  function EncodeAll(events: seq<Event>): Written {
    if events == [] then Written(true, UNSTARTED)
    else
      var r := EncodeAll(events[..|events| - 1]);
      if r.ok then Encode(r.state, events[|events| - 1]) else r
  }

  class StreamEncoder {
    var id: string
    var model: string
    var started: bool
    var latestUsage: Usage
    var written: seq<Frame>

    constructor ()
      ensures Abs() == UNSTARTED
    {
      id, model, started, latestUsage, written := "", "", false, NO_USAGE, [];
    }

    function Abs(): Encoder
      reads this
    {
      Encoder(id, model, started, latestUsage, written)
    }

    method Send(frame: Frame)
      modifies this`written
      ensures Abs() == Write(old(Abs()), frame)
    {
      written := written + [frame];
    }

    method EncodeEvent(event: Event) returns (ok: bool)
      modifies this
      ensures Written(ok, Abs()) == Encode(old(Abs()), event)
    {
      ok := true;
      match event
      case ResponseStart(newID, newModel) =>
        id := newID;
        model := newModel;
        started := true;
        Send(MessageStart(id, model, ZERO_USAGE));
      case ContentStart(index, block) =>
        if !block.TextBlock? { return false; }
        Send(BlockStart(index, TextStart(block.text)));
      case ToolCallStart(index, block) =>
        if !block.ToolCallBlock? { return false; }
        Send(BlockStart(index, ToolUseStart(block.id, block.name, "{}")));
      case TextDelta(index, text) => Send(BlockDelta(index, TextPiece(text)));
      case ToolCallDelta(index, delta) =>
        if delta.None? { return false; }
        Send(BlockDelta(index, InputPiece(delta.value.arguments)));
      case ContentStop(index) => Send(BlockStop(index));
      case UsageReport(usage) =>
        if usage.Some? {
          latestUsage := usage.value;
        }
      case ResponseStop(reason, sequence) =>
        var stop := EncodeStop(reason);
        if stop.None? { return false; }
        Send(MessageDelta(stop.value, if sequence == "" then None else Some(sequence), WireUsageOf(latestUsage)));
        Send(MessageStop);
      case Failure(error) =>
        if error.None? { return false; }
        var code := error.value.code;
        if code == "" {
          code := "api_error";
        }
        Send(ErrorOut(code, error.value.message));
      case ReasoningDelta(_, _) => ok := false;
      case AudioDelta(_, _, _) => ok := false;
    }
  }
}
