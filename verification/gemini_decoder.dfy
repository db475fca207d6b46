/**
 The streaming generateContent decoder. Chunks arrive as decoded JSON; the events it emits are
 related to a direct reading of the chunks that knows nothing of blocks or events.
 */
module GeminiDecoder {
  import opened Llm
  import opened Canonical
  import Decimal

  datatype FunctionCall = FunctionCall(id: string, name: string, args: string)

  /** `media` stands for inline data, file data or a function response. */
  datatype Part = Part(thought: bool, text: Option<string>, signature: string, call: Option<FunctionCall>, media: bool)

  datatype Candidate = Candidate(parts: seq<Part>, finishReason: string)

  datatype UsageMetadata = UsageMetadata(prompt: int, candidates: int, cached: int, thoughts: int)

  datatype Chunk = Chunk(responseID: string, model: string, usage: Option<UsageMetadata>, candidates: seq<Candidate>)

  /** The data of one server-sent event: empty or `[DONE]`, not JSON, or a chunk. */
  datatype Frame = Ignored | Malformed | Data(chunk: Chunk)

  datatype Active =
    | Idle
    | ActiveText(index: nat)
    | ActiveReasoning(index: nat)
    | ActiveTool(index: nat, id: string, name: string, arguments: string)

  datatype State = State(
    started: bool, stopped: bool, sawTool: bool, nextBlock: nat, active: Active, emitted: seq<Event>)

  const INITIAL := State(false, false, false, 0, Idle, [])

  /** The state is the one the decoder is left in, also when it fails. */
  datatype Outcome = Outcome(ok: bool, state: State)

  function FinishReason(reason: string): StopReason {
    if reason == "" || reason == "STOP" then EndTurn
    else if reason == "MAX_TOKENS" then MaxTokens
    else if reason == "SAFETY" || reason == "RECITATION" || reason == "BLOCKLIST" || reason == "PROHIBITED_CONTENT"
            || reason == "SPII" then ContentFilter
    else Unknown
  }

  function Counts(u: UsageMetadata): Usage {
    Usage(u.prompt, u.candidates, u.thoughts, u.cached, 0)
  }

  predicate Silent(p: Part) {
    && (p.text.None? || p.text.value == "")
    && (p.thought || (p.signature != "" && p.call.None? && !p.media))
  }

  // ---------------------------------------------------------------- what the decoder does

  function Emit(s: State, e: Event): State {
    s.(emitted := s.emitted + [e])
  }

  function CloseActive(s: State): State {
    if s.active.Idle? then s else Emit(s.(active := Idle), ContentStop(s.active.index))
  }

  function EnsureText(s: State): State {
    if s.active.ActiveText? then s
    else
      var c := CloseActive(s);
      Emit(c.(active := ActiveText(c.nextBlock), nextBlock := c.nextBlock + 1),
           ContentStart(c.nextBlock, TextBlock("")))
  }

  function EnsureReasoning(s: State): State {
    if s.active.ActiveReasoning? then s
    else
      var c := CloseActive(s);
      Emit(c.(active := ActiveReasoning(c.nextBlock), nextBlock := c.nextBlock + 1),
           ContentStart(c.nextBlock, ReasoningBlock("", "", "")))
  }

  function CallID(s: State, call: FunctionCall): string {
    if call.id != "" then call.id
    else if s.active.ActiveTool? && s.active.name == call.name && s.active.id != "" then s.active.id
    else "gemini_call_" + Decimal.Print(s.nextBlock)
  }

  function EnsureTool(s: State, id: string, name: string): (r: State)
    ensures r.active.ActiveTool? && r.active.id == id && r.active.name == name
  {
    if s.active.ActiveTool? && s.active.id == id && s.active.name == name then s
    else
      var c := CloseActive(s);
      Emit(c.(active := ActiveTool(c.nextBlock, id, name, ""), nextBlock := c.nextBlock + 1, sawTool := true),
           ToolCallStart(c.nextBlock, ToolCallBlock(id, name, "{}")))
  }

  /** The arguments printed so far may only be extended. */
  function ExtendCall(json: Json, s: State, args: string): Outcome
    requires s.active.ActiveTool?
  {
    if !json.isObject(args) then Outcome(false, s)
    else
      var encoded := json.compact(args);
      var previous := s.active.arguments;
      if encoded == previous then Outcome(true, s)
      else if previous != "" && !IsPrefix(previous, encoded) then Outcome(false, s)
      else
        var delta := ToolDelta(s.active.id, s.active.name, encoded[|previous|..]);
        Outcome(true, Emit(s.(active := s.active.(arguments := encoded)), ToolCallDelta(s.active.index, Some(delta))))
  }

  function DecodeCall(json: Json, s: State, call: FunctionCall): Outcome {
    ExtendCall(json, EnsureTool(s, CallID(s, call), call.name), OrEmptyObject(call.args))
  }

  function DecodePart(json: Json, s: State, p: Part): Outcome {
    if Silent(p) then Outcome(true, s)
    else if p.thought then
      var t := EnsureReasoning(s);
      Outcome(true, Emit(t, ReasoningDelta(t.active.index, p.text.value)))
    else if p.text.Some? then
      var t := EnsureText(s);
      Outcome(true, if p.text.value == "" then t else Emit(t, TextDelta(t.active.index, p.text.value)))
    else if p.call.Some? then DecodeCall(json, s, p.call.value)
    else Outcome(false, s)
  }

  function DecodeParts(json: Json, s: State, parts: seq<Part>): Outcome {
    if parts == [] then Outcome(true, s)
    else
      var r := DecodeParts(json, s, parts[..|parts| - 1]);
      if r.ok then DecodePart(json, r.state, parts[|parts| - 1]) else r
  }

  function DecodeFinish(s: State, finishReason: string): Outcome {
    if finishReason == "" then Outcome(true, s)
    else
      var plain := FinishReason(finishReason);
      var stop := if s.sawTool && plain == EndTurn then ToolUse else plain;
      if stop == Unknown then Outcome(false, s)
      else Outcome(true, Emit(CloseActive(s).(stopped := true), ResponseStop(stop, "")))
  }

  function Begin(s: State, chunk: Chunk): State {
    var t := if s.started then s else Emit(s.(started := true), ResponseStart(chunk.responseID, chunk.model));
    if chunk.usage.Some? then Emit(t, UsageReport(Some(Counts(chunk.usage.value)))) else t
  }

  function DecodeChunk(json: Json, s: State, chunk: Chunk): Outcome {
    var t := Begin(s, chunk);
    if |chunk.candidates| > 1 then Outcome(false, t)
    else if |chunk.candidates| == 0 then Outcome(true, t)
    else
      var r := DecodeParts(json, t, chunk.candidates[0].parts);
      if r.ok then DecodeFinish(r.state, chunk.candidates[0].finishReason) else r
  }

  function DecodeFrame(json: Json, s: State, frame: Frame): Outcome {
    match frame
    case Ignored => Outcome(true, s)
    case Malformed => Outcome(false, s)
    case Data(chunk) => DecodeChunk(json, s, chunk)
  }

  function DecodeFrames(json: Json, frames: seq<Frame>): Outcome {
    if frames == [] then Outcome(true, INITIAL)
    else
      var r := DecodeFrames(json, frames[..|frames| - 1]);
      if r.ok then DecodeFrame(json, r.state, frames[|frames| - 1]) else r
  }

  /** The whole stream: a stream that started must have finished. */
  predicate Accepts(json: Json, frames: seq<Frame>) {
    var r := DecodeFrames(json, frames);
    r.ok && (r.state.started ==> r.state.stopped)
  }

  /** A failed decoder is never asked again, so the first failure is the outcome. */
  lemma {:induction false} FirstFailureStands(json: Json, frames: seq<Frame>, k: nat)
    requires k <= |frames| && !DecodeFrames(json, frames[..k]).ok
    ensures DecodeFrames(json, frames) == DecodeFrames(json, frames[..k])
  {
    if k < |frames| {
      assert frames[..|frames| - 1][..k] == frames[..k];
      FirstFailureStands(json, frames[..|frames| - 1], k);
    } else {
      assert frames[..k] == frames;
    }
  }

  lemma {:induction false} FirstPartFailureStands(json: Json, s: State, parts: seq<Part>, k: nat)
    requires k <= |parts| && !DecodeParts(json, s, parts[..k]).ok
    ensures DecodeParts(json, s, parts) == DecodeParts(json, s, parts[..k])
  {
    if k < |parts| {
      assert parts[..|parts| - 1][..k] == parts[..k];
      FirstPartFailureStands(json, s, parts[..|parts| - 1], k);
    } else {
      assert parts[..k] == parts;
    }
  }

  /** The decoder object. `emitted` stands for the calls of the emit callback, in order. */
  class StreamDecoder {
    const json: Json
    var started: bool
    var stopped: bool
    var sawTool: bool
    var nextBlock: nat
    var active: Active
    var emitted: seq<Event>

    constructor (json: Json)
      ensures this.json == json && Abs() == INITIAL
    {
      this.json := json;
      started, stopped, sawTool, nextBlock, active, emitted := false, false, false, 0, Idle, [];
    }

    function Abs(): State
      reads this
    {
      State(started, stopped, sawTool, nextBlock, active, emitted)
    }

    method Send(e: Event)
      modifies this`emitted
      ensures Abs() == Emit(old(Abs()), e)
    {
      emitted := emitted + [e];
    }

    method DecodeEvent(frame: Frame) returns (ok: bool)
      modifies this
      ensures Outcome(ok, Abs()) == DecodeFrame(json, old(Abs()), frame)
    {
      if frame.Ignored? { return true; }
      if frame.Malformed? { return false; }
      var chunk := frame.chunk;
      if !started {
        started := true;
        Send(ResponseStart(chunk.responseID, chunk.model));
      }
      if chunk.usage.Some? {
        Send(UsageReport(Some(Counts(chunk.usage.value))));
      }
      if |chunk.candidates| > 1 { return false; }
      if |chunk.candidates| == 0 { return true; }
      var candidate := chunk.candidates[0];
      ghost var begun := Abs();
      var parts := candidate.parts;
      for k := 0 to |parts|
        invariant Outcome(true, Abs()) == DecodeParts(json, begun, parts[..k])
      {
        assert parts[..k + 1][..k] == parts[..k];
        var accepted := DecodePartEvent(parts[k]);
        if !accepted {
          FirstPartFailureStands(json, begun, parts, k + 1);
          return false;
        }
      }
      assert parts[..|parts|] == parts;
      ok := Finish(candidate.finishReason);
    }

    method Finish(finishReason: string) returns (ok: bool)
      modifies this
      ensures Outcome(ok, Abs()) == DecodeFinish(old(Abs()), finishReason)
    {
      if finishReason == "" { return true; }
      var stop := FinishReason(finishReason);
      if sawTool && stop == EndTurn {
        stop := ToolUse;
      }
      if stop == Unknown { return false; }
      Close();
      stopped := true;
      Send(ResponseStop(stop, ""));
      return true;
    }

    method DecodePartEvent(p: Part) returns (ok: bool)
      modifies this
      ensures Outcome(ok, Abs()) == DecodePart(json, old(Abs()), p)
    {
      if p.thought {
        if p.text.None? || p.text.value == "" { return true; }
        OpenReasoning();
        Send(ReasoningDelta(active.index, p.text.value));
        return true;
      }
      if p.signature != "" && (p.text.None? || p.text.value == "") && p.call.None? && !p.media { return true; }
      if p.text.Some? {
        OpenText();
        if p.text.value != "" {
          Send(TextDelta(active.index, p.text.value));
        }
        return true;
      }
      if p.call.Some? {
        ok := DecodeFunctionCall(p.call.value);
        return;
      }
      return false;
    }

    method OpenText()
      modifies this
      ensures Abs() == EnsureText(old(Abs())) && active.ActiveText?
    {
      if active.ActiveText? { return; }
      Close();
      active := ActiveText(nextBlock);
      nextBlock := nextBlock + 1;
      Send(ContentStart(active.index, TextBlock("")));
    }

    method OpenReasoning()
      modifies this
      ensures Abs() == EnsureReasoning(old(Abs())) && active.ActiveReasoning?
    {
      if active.ActiveReasoning? { return; }
      Close();
      active := ActiveReasoning(nextBlock);
      nextBlock := nextBlock + 1;
      Send(ContentStart(active.index, ReasoningBlock("", "", "")));
    }

    method DecodeFunctionCall(call: FunctionCall) returns (ok: bool)
      modifies this
      ensures Outcome(ok, Abs()) == DecodeCall(json, old(Abs()), call)
    {
      var id := call.id;
      if id == "" && active.ActiveTool? && active.name == call.name {
        id := active.id;
      }
      if id == "" {
        id := "gemini_call_" + Decimal.Print(nextBlock);
      }
      if !active.ActiveTool? || active.id != id || active.name != call.name {
        Close();
        active := ActiveTool(nextBlock, id, call.name, "");
        nextBlock := nextBlock + 1;
        sawTool := true;
        Send(ToolCallStart(active.index, ToolCallBlock(id, call.name, "{}")));
      }
      var args := call.args;
      if |args| == 0 {
        args := "{}";
      }
      if !json.isObject(args) { return false; }
      var encoded := json.compact(args);
      var previous := active.arguments;
      if encoded == previous { return true; }
      if previous != "" && !IsPrefix(previous, encoded) { return false; }
      var delta := encoded[|previous|..];
      active := active.(arguments := encoded);
      Send(ToolCallDelta(active.index, Some(ToolDelta(id, call.name, delta))));
      return true;
    }

    method Close()
      modifies this
      ensures Abs() == CloseActive(old(Abs()))
    {
      if active.Idle? { return; }
      var index := active.index;
      active := Idle;
      Send(ContentStop(index));
    }
  }

  /** Decoding a whole stream into the events it emits. */
  method Decode(json: Json, frames: seq<Frame>) returns (ok: bool, events: seq<Event>)
    ensures ok == Accepts(json, frames)
    ensures events == DecodeFrames(json, frames).state.emitted
  {
    var decoder := new StreamDecoder(json);
    for k := 0 to |frames|
      invariant decoder.json == json
      invariant Outcome(true, decoder.Abs()) == DecodeFrames(json, frames[..k])
    {
      assert frames[..k + 1][..k] == frames[..k];
      var accepted := decoder.DecodeEvent(frames[k]);
      if !accepted {
        FirstFailureStands(json, frames, k + 1);
        return false, decoder.emitted;
      }
    }
    assert frames[..|frames|] == frames;
    return !(decoder.started && !decoder.stopped), decoder.emitted;
  }

  // ---------------------------------------------------------------- what the chunks say

  /** The content of a stream: maximal runs of text, of thinking, and function calls. */
  datatype Doc = Doc(items: seq<Item>, calls: seq<Call>) {
    predicate EndsInCall() {
      |items| > 0 && items[|items| - 1].CallItem? && |calls| > 0
    }

    function LastCall(): Call
      requires EndsInCall()
    {
      calls[|calls| - 1]
    }
  }

  function AddText(doc: Doc, text: string): Doc {
    var n := |doc.items|;
    if n > 0 && doc.items[n - 1].TextItem? then
      doc.(items := doc.items[n - 1 := TextItem(doc.items[n - 1].text + text)])
    else doc.(items := doc.items + [TextItem(text)])
  }

  function AddThinking(doc: Doc, thinking: string): Doc {
    var n := |doc.items|;
    if n > 0 && doc.items[n - 1].ReasoningItem? then
      doc.(items := doc.items[n - 1 := ReasoningItem(doc.items[n - 1].thinking + thinking)])
    else doc.(items := doc.items + [ReasoningItem(thinking)])
  }

  /** A call without an id continues the call of that name it follows, or is numbered. */
  function NameCall(doc: Doc, call: FunctionCall): string {
    if call.id != "" then call.id
    else if doc.EndsInCall() && doc.LastCall().name == call.name && doc.LastCall().id != "" then doc.LastCall().id
    else "gemini_call_" + Decimal.Print(|doc.items|)
  }

  /** A repeated call may only extend the printed arguments of the one before it. */
  function AddCall(json: Json, doc: Doc, call: FunctionCall): Option<Doc> {
    var id := NameCall(doc, call);
    var args := OrEmptyObject(call.args);
    if !json.isObject(args) then None
    else
      var printed := json.compact(args);
      if doc.EndsInCall() && doc.LastCall().id == id && doc.LastCall().name == call.name then
        if !IsPrefix(doc.LastCall().arguments, printed) then None
        else Some(doc.(calls := doc.calls[|doc.calls| - 1 := Call(id, call.name, printed)]))
      else Some(Doc(doc.items + [CallItem(|doc.calls|)], doc.calls + [Call(id, call.name, printed)]))
  }

  function AddPart(json: Json, doc: Doc, p: Part): Option<Doc> {
    if Silent(p) then Some(doc)
    else if p.thought then Some(AddThinking(doc, p.text.value))
    else if p.text.Some? then Some(AddText(doc, p.text.value))
    else if p.call.Some? then AddCall(json, doc, p.call.value)
    else None
  }

  function AddParts(json: Json, doc: Doc, parts: seq<Part>): Option<Doc> {
    if parts == [] then Some(doc)
    else
      match AddParts(json, doc, parts[..|parts| - 1])
      case None => None
      case Some(d) => AddPart(json, d, parts[|parts| - 1])
  }

  datatype Reading = Reading(started: bool, id: string, model: string, doc: Doc, usage: Usage, stop: Option<StopReason>)

  const UNREAD := Reading(false, "", "", Doc([], []), NO_USAGE, None)

  predicate AllSilent(parts: seq<Part>) {
    forall k :: 0 <= k < |parts| ==> Silent(parts[k])
  }

  /** Once a finish reason was read, a candidate may bring nothing further. */
  function ReadCandidate(json: Json, r: Reading, c: Candidate): Option<Reading> {
    if r.stop.Some? then
      if AllSilent(c.parts) && c.finishReason == "" then Some(r) else None
    else
      match AddParts(json, r.doc, c.parts)
      case None => None
      case Some(doc) =>
        var plain := FinishReason(c.finishReason);
        if c.finishReason == "" then Some(r.(doc := doc))
        else if plain == Unknown then None
        else Some(r.(doc := doc, stop := Some(if doc.calls != [] && plain == EndTurn then ToolUse else plain)))
  }

  function ReadFrame(json: Json, r: Reading, frame: Frame): Option<Reading> {
    match frame
    case Ignored => Some(r)
    case Malformed => None
    case Data(chunk) =>
      var t := if r.started then r else r.(started := true, id := chunk.responseID, model := chunk.model);
      var u := if chunk.usage.Some? then t.(usage := Counts(chunk.usage.value)) else t;
      if |chunk.candidates| > 1 then None
      else if |chunk.candidates| == 0 then Some(u)
      else ReadCandidate(json, u, chunk.candidates[0])
  }

  function Read(json: Json, frames: seq<Frame>): Option<Reading> {
    if frames == [] then Some(UNREAD)
    else
      match Read(json, frames[..|frames| - 1])
      case None => None
      case Some(r) => ReadFrame(json, r, frames[|frames| - 1])
  }
}
