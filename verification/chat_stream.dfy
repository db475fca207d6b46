/** Chat Completions streams: chunks, their direct reading, the decoder and the encoder. */
module ChatStream {
  import opened Llm
  import Sorting

  datatype ToolCallPart = ToolCallPart(index: int, id: string, name: string, arguments: string)

  datatype Choice = Choice(index: int, content: Option<string>, calls: seq<ToolCallPart>, finish: Option<string>)

  datatype ChatUsage = ChatUsage(prompt: int, completion: int, cached: Option<int>, reasoning: Option<int>)

  datatype Chunk = Chunk(id: string, model: string, choices: seq<Choice>, usage: Option<ChatUsage>)

  /** The data of one server-sent event. */
  datatype Frame = Done | Empty | Malformed | Data(chunk: Chunk)

  function DecodeFinish(reason: string): StopReason {
    if reason == "stop" then EndTurn
    else if reason == "length" then MaxTokens
    else if reason == "tool_calls" || reason == "function_call" then ToolUse
    else if reason == "content_filter" then ContentFilter
    else Unknown
  }

  function EncodeFinish(reason: StopReason): Option<string> {
    match reason
    case EndTurn => Some("stop")
    case StopSequence => Some("stop")
    case MaxTokens => Some("length")
    case ToolUse => Some("tool_calls")
    case ContentFilter => Some("content_filter")
    case Unknown => None
  }

  function DecodeUsage(u: ChatUsage): Usage {
    Usage(u.prompt, u.completion, if u.reasoning.Some? then u.reasoning.value else 0,
          if u.cached.Some? then u.cached.value else 0, 0)
  }

  // ---------------------------------------------------------------- the decoder

  datatype Decoder = Decoder(
    started: bool, done: bool, pending: Option<StopReason>, textBlock: Option<nat>, nextBlock: nat,
    toolBlocks: map<int, nat>, openBlocks: set<int>, emitted: seq<Event>)

  const INITIAL := Decoder(false, false, None, None, 0, map[], {}, [])

  datatype Outcome = Outcome(ok: bool, state: Decoder)

  function Emit(d: Decoder, e: Event): Decoder {
    d.(emitted := d.emitted + [e])
  }

  function OpenText(d: Decoder): (r: Decoder)
    ensures r.textBlock.Some?
  {
    if d.textBlock.Some? then d
    else
      Emit(d.(textBlock := Some(d.nextBlock), nextBlock := d.nextBlock + 1, openBlocks := d.openBlocks + {d.nextBlock}),
           ContentStart(d.nextBlock, TextBlock("")))
  }

  function HearContent(d: Decoder, content: string): Decoder {
    var t := OpenText(d);
    if content == "" then t else Emit(t, TextDelta(t.textBlock.value, content))
  }

  function OpenTool(d: Decoder, c: ToolCallPart): (r: Decoder)
    ensures c.index in r.toolBlocks
  {
    if c.index in d.toolBlocks then d
    else
      Emit(d.(toolBlocks := d.toolBlocks[c.index := d.nextBlock], nextBlock := d.nextBlock + 1,
              openBlocks := d.openBlocks + {d.nextBlock}),
           ToolCallStart(d.nextBlock, ToolCallBlock(c.id, c.name, "{}")))
  }

  function HearCall(d: Decoder, c: ToolCallPart): Decoder {
    var t := OpenTool(d, c);
    if c.arguments == "" then t
    else Emit(t, ToolCallDelta(t.toolBlocks[c.index], Some(ToolDelta("", "", c.arguments))))
  }

  function HearCalls(d: Decoder, calls: seq<ToolCallPart>): Decoder {
    if calls == [] then d else HearCall(HearCalls(d, calls[..|calls| - 1]), calls[|calls| - 1])
  }

  function HearChoice(d: Decoder, c: Choice): Outcome {
    if c.index != 0 then Outcome(false, d)
    else
      var t := if c.content.Some? then HearContent(d, c.content.value) else d;
      var u := HearCalls(t, c.calls);
      if c.finish.None? then Outcome(true, u)
      else
        var stop := DecodeFinish(c.finish.value);
        Outcome(stop != Unknown, u.(pending := Some(stop)))
  }

  function HearChoices(d: Decoder, choices: seq<Choice>): Outcome {
    if choices == [] then Outcome(true, d)
    else
      var r := HearChoices(d, choices[..|choices| - 1]);
      if r.ok then HearChoice(r.state, choices[|choices| - 1]) else r
  }

  function Begin(d: Decoder, chunk: Chunk): Decoder {
    var t := if d.started then d else Emit(d.(started := true), ResponseStart(chunk.id, chunk.model));
    if chunk.usage.Some? then Emit(t, UsageReport(Some(DecodeUsage(chunk.usage.value)))) else t
  }

  /** Closing the open blocks in increasing order. */
  ghost function CloseAll(d: Decoder, indexes: seq<int>): Decoder {
    if indexes == [] then d
    else
      var last := indexes[|indexes| - 1];
      var t := CloseAll(d, indexes[..|indexes| - 1]);
      Emit(t.(openBlocks := t.openBlocks - {last}), ContentStop(last))
  }

  ghost function Finish(d: Decoder): Outcome {
    var t := d.(done := true);
    if d.pending.None? || d.pending == Some(Unknown) then Outcome(false, t)
    else Outcome(true, Emit(CloseAll(t, Sorting.Sorted(d.openBlocks)), ResponseStop(d.pending.value, "")))
  }

  ghost function DecodeFrame(d: Decoder, frame: Frame): Outcome {
    match frame
    case Done => Finish(d)
    case Empty => Outcome(true, d)
    case Malformed => Outcome(false, d)
    case Data(chunk) => HearChoices(Begin(d, chunk), chunk.choices)
  }

  ghost function DecodeFrames(frames: seq<Frame>): Outcome {
    if frames == [] then Outcome(true, INITIAL)
    else
      var r := DecodeFrames(frames[..|frames| - 1]);
      if r.ok then DecodeFrame(r.state, frames[|frames| - 1]) else r
  }

  ghost predicate Accepts(frames: seq<Frame>) {
    var r := DecodeFrames(frames);
    r.ok && (r.state.started ==> r.state.done)
  }

  lemma {:induction false} FirstFailureStands(frames: seq<Frame>, k: nat)
    requires k <= |frames| && !DecodeFrames(frames[..k]).ok
    ensures DecodeFrames(frames) == DecodeFrames(frames[..k])
  {
    hide DecodeFrame;
    if k < |frames| {
      assert frames[..|frames| - 1][..k] == frames[..k];
      FirstFailureStands(frames[..|frames| - 1], k);
    } else {
      assert frames[..k] == frames;
    }
  }

  lemma {:induction false} FirstChoiceFailureStands(d: Decoder, choices: seq<Choice>, k: nat)
    requires k <= |choices| && !HearChoices(d, choices[..k]).ok
    ensures HearChoices(d, choices) == HearChoices(d, choices[..k])
  {
    hide HearChoice;
    if k < |choices| {
      assert choices[..|choices| - 1][..k] == choices[..k];
      FirstChoiceFailureStands(d, choices[..|choices| - 1], k);
    } else {
      assert choices[..k] == choices;
    }
  }

  /** The locals the decoding closure captures. */
  class StreamDecoder {
    var started: bool
    var done: bool
    var pending: Option<StopReason>
    var textBlock: Option<nat>
    var nextBlock: nat
    var toolBlocks: map<int, nat>
    var openBlocks: set<int>
    var emitted: seq<Event>

    constructor ()
      ensures Abs() == INITIAL
    {
      started, done, pending, textBlock, nextBlock := false, false, None, None, 0;
      toolBlocks, openBlocks, emitted := map[], {}, [];
    }

    function Abs(): Decoder
      reads this
    {
      Decoder(started, done, pending, textBlock, nextBlock, toolBlocks, openBlocks, emitted)
    }

    method Send(e: Event)
      modifies this`emitted
      ensures Abs() == Emit(old(Abs()), e)
    {
      emitted := emitted + [e];
    }

    method DecodeEvent(frame: Frame) returns (ok: bool)
      modifies this
      ensures Outcome(ok, Abs()) == DecodeFrame(old(Abs()), frame)
    {
      match frame
      case Done => ok := Conclude();
      case Empty => ok := true;
      case Malformed => ok := false;
      case Data(chunk) => ok := DecodeChunk(chunk);
    }

    method Conclude() returns (ok: bool)
      modifies this
      ensures Outcome(ok, Abs()) == Finish(old(Abs()))
    {
      done := true;
      if pending.None? || pending == Some(Unknown) { return false; }
      var indexes := Sorting.Sort(openBlocks);
      Close(indexes);
      Send(ResponseStop(pending.value, ""));
      return true;
    }

    method Close(indexes: seq<int>)
      modifies this`openBlocks, this`emitted
      ensures Abs() == CloseAll(old(Abs()), indexes)
    {
      ghost var begun := Abs();
      for k := 0 to |indexes|
        invariant Abs() == CloseAll(begun, indexes[..k])
      {
        assert indexes[..k + 1][..k] == indexes[..k];
        Send(ContentStop(indexes[k]));
        openBlocks := openBlocks - {indexes[k]};
      }
      assert indexes[..|indexes|] == indexes;
    }

    method DecodeChunk(chunk: Chunk) returns (ok: bool)
      modifies this
      ensures Outcome(ok, Abs()) == HearChoices(Begin(old(Abs()), chunk), chunk.choices)
    {
      if !started {
        started := true;
        Send(ResponseStart(chunk.id, chunk.model));
      }
      if chunk.usage.Some? {
        Send(UsageReport(Some(DecodeUsage(chunk.usage.value))));
      }
      ghost var begun := Abs();
      var choices := chunk.choices;
      for k := 0 to |choices|
        invariant Outcome(true, Abs()) == HearChoices(begun, choices[..k])
      {
        assert choices[..k + 1][..k] == choices[..k];
        var heard := DecodeChoice(choices[k]);
        if !heard {
          FirstChoiceFailureStands(begun, choices, k + 1);
          return false;
        }
      }
      assert choices[..|choices|] == choices;
      return true;
    }

    method DecodeChoice(c: Choice) returns (ok: bool)
      modifies this
      ensures Outcome(ok, Abs()) == HearChoice(old(Abs()), c)
    {
      if c.index != 0 { return false; }
      if c.content.Some? {
        DecodeContent(c.content.value);
      }
      DecodeCalls(c.calls);
      if c.finish.Some? {
        pending := Some(DecodeFinish(c.finish.value));
        if pending == Some(Unknown) { return false; }
      }
      return true;
    }

    method DecodeContent(content: string)
      modifies this
      ensures Abs() == HearContent(old(Abs()), content)
    {
      if textBlock.None? {
        textBlock := Some(nextBlock);
        nextBlock := nextBlock + 1;
        openBlocks := openBlocks + {textBlock.value};
        Send(ContentStart(textBlock.value, TextBlock("")));
      }
      if content != "" {
        Send(TextDelta(textBlock.value, content));
      }
    }

    method DecodeCalls(calls: seq<ToolCallPart>)
      modifies this
      ensures Abs() == HearCalls(old(Abs()), calls)
    {
      ghost var begun := Abs();
      for k := 0 to |calls|
        invariant Abs() == HearCalls(begun, calls[..k])
      {
        assert calls[..k + 1][..k] == calls[..k];
        DecodeCall(calls[k]);
      }
      assert calls[..|calls|] == calls;
    }

    method DecodeCall(c: ToolCallPart)
      modifies this
      ensures Abs() == HearCall(old(Abs()), c)
    {
      if c.index !in toolBlocks {
        var block := nextBlock;
        nextBlock := nextBlock + 1;
        toolBlocks := toolBlocks[c.index := block];
        openBlocks := openBlocks + {block};
        Send(ToolCallStart(block, ToolCallBlock(c.id, c.name, "{}")));
      }
      if c.arguments != "" {
        Send(ToolCallDelta(toolBlocks[c.index], Some(ToolDelta("", "", c.arguments))));
      }
    }
  }

  method Decode(frames: seq<Frame>) returns (ok: bool, events: seq<Event>)
    ensures ok == Accepts(frames) && events == DecodeFrames(frames).state.emitted
  {
    var decoder := new StreamDecoder();
    for k := 0 to |frames|
      invariant Outcome(true, decoder.Abs()) == DecodeFrames(frames[..k])
    {
      assert frames[..k + 1][..k] == frames[..k];
      var decoded := decoder.DecodeEvent(frames[k]);
      if !decoded {
        FirstFailureStands(frames, k + 1);
        return false, decoder.emitted;
      }
    }
    assert frames[..|frames|] == frames;
    return !(decoder.started && !decoder.done), decoder.emitted;
  }

  // ---------------------------------------------------------------- the encoder

  datatype Encoder = Encoder(
    id: string, model: string, started: bool, stopped: bool, usage: Option<Usage>,
    toolIndexes: map<int, int>, nextTool: int, written: seq<Frame>)

  const UNSTARTED := Encoder("", "", false, false, None, map[], 0, [])

  datatype Written = Written(ok: bool, state: Encoder)

  function WriteChoice(e: Encoder, content: Option<string>, calls: seq<ToolCallPart>, finish: Option<string>): Encoder {
    e.(written := e.written + [Data(Chunk(e.id, e.model, [Choice(0, content, calls, finish)], None))])
  }

  function EncodeUsage(u: Usage): ChatUsage {
    ChatUsage(u.input, u.output, if u.cacheRead != 0 then Some(u.cacheRead) else None,
              if u.reasoning != 0 then Some(u.reasoning) else None)
  }

  function Encode(includeUsage: bool, e: Encoder, event: Event): Written {
    match event
    case ResponseStart(id, model) =>
      Written(true, WriteChoice(e.(id := id, model := model, started := true), None, [], None))
    case TextDelta(_, text) => Written(true, WriteChoice(e, Some(text), [], None))
    case ToolCallStart(index, block) =>
      if !block.ToolCallBlock? then Written(false, e)
      else
        var k := if index in e.toolIndexes then e.toolIndexes[index] else e.nextTool;
        var t := if index in e.toolIndexes then e
                 else e.(toolIndexes := e.toolIndexes[index := k], nextTool := e.nextTool + 1);
        Written(true, WriteChoice(t, None, [ToolCallPart(k, block.id, block.name, "")], None))
    case ToolCallDelta(index, delta) =>
      if delta.None? || index !in e.toolIndexes then Written(false, e)
      else Written(true, WriteChoice(e, None, [ToolCallPart(e.toolIndexes[index], "", "", delta.value.arguments)], None))
    case UsageReport(usage) => Written(true, if usage.Some? then e.(usage := usage) else e)
    case ResponseStop(reason, _) =>
      var finish := EncodeFinish(reason);
      if finish.None? then Written(false, e)
      else
        var t := WriteChoice(e, None, [], finish);
        var u :=
          if includeUsage && t.usage.Some? then
            t.(written := t.written + [Data(Chunk(t.id, t.model, [], Some(EncodeUsage(t.usage.value))))])
          else t;
        Written(true, u.(stopped := true, written := u.written + [Done]))
    case ContentStart(_, _) => Written(true, e)
    case ContentStop(_) => Written(true, e)
    case _ => Written(false, e)
  }

  function EncodeAll(includeUsage: bool, events: seq<Event>): Written {
    if events == [] then Written(true, UNSTARTED)
    else
      var r := EncodeAll(includeUsage, events[..|events| - 1]);
      if r.ok then Encode(includeUsage, r.state, events[|events| - 1]) else r
  }

  class StreamEncoder {
    const includeUsage: bool
    var id: string
    var model: string
    var started: bool
    var stopped: bool
    var latestUsage: Option<Usage>
    var toolIndexes: map<int, int>
    var nextTool: int
    var written: seq<Frame>

    constructor (includeUsage: bool)
      ensures this.includeUsage == includeUsage && Abs() == UNSTARTED
    {
      this.includeUsage := includeUsage;
      id, model, started, stopped, latestUsage := "", "", false, false, None;
      toolIndexes, nextTool, written := map[], 0, [];
    }

    function Abs(): Encoder
      reads this
    {
      Encoder(id, model, started, stopped, latestUsage, toolIndexes, nextTool, written)
    }

    method SendChoice(content: Option<string>, calls: seq<ToolCallPart>, finish: Option<string>)
      modifies this`written
      ensures Abs() == WriteChoice(old(Abs()), content, calls, finish)
    {
      written := written + [Data(Chunk(id, model, [Choice(0, content, calls, finish)], None))];
    }

    method EncodeEvent(event: Event) returns (ok: bool)
      modifies this
      ensures Written(ok, Abs()) == Encode(includeUsage, old(Abs()), event)
    {
      ok := true;
      match event
      case ResponseStart(newID, newModel) =>
        id := newID;
        model := newModel;
        started := true;
        SendChoice(None, [], None);
      case TextDelta(_, text) => SendChoice(Some(text), [], None);
      case ToolCallStart(index, block) =>
        if !block.ToolCallBlock? { return false; }
        if index !in toolIndexes {
          toolIndexes := toolIndexes[index := nextTool];
          nextTool := nextTool + 1;
        }
        SendChoice(None, [ToolCallPart(toolIndexes[index], block.id, block.name, "")], None);
      case ToolCallDelta(index, delta) =>
        if delta.None? || index !in toolIndexes { return false; }
        SendChoice(None, [ToolCallPart(toolIndexes[index], "", "", delta.value.arguments)], None);
      case UsageReport(usage) =>
        if usage.Some? {
          latestUsage := usage;
        }
      case ResponseStop(reason, _) =>
        var finish := EncodeFinish(reason);
        if finish.None? { return false; }
        SendChoice(None, [], finish);
        if includeUsage && latestUsage.Some? {
          written := written + [Data(Chunk(id, model, [], Some(EncodeUsage(latestUsage.value))))];
        }
        stopped := true;
        written := written + [Done];
      case ContentStart(_, _) =>
      case ContentStop(_) =>
      case _ => ok := false;
    }
  }
}
