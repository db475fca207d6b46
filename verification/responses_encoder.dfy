/**
 The Responses stream encoder: canonical events in, numbered server-sent events out. Time stamps
 and the random obfuscation field of deltas are not part of the model.
 */
module ResponsesEncoder {
  import opened Llm
  import Decimal

  datatype Status = InProgress | Completed | Incomplete | Failed

  datatype ContentPart = OutputText(text: string) | RefusalPart(refusal: string)

  datatype OutputItem =
    | MessageOut(id: string, status: Status, content: seq<ContentPart>)
    | CallOut(id: string, status: Status, callID: string, name: string, arguments: string)
    | ReasoningOut(id: string, status: Status, summary: seq<string>)

  datatype Snapshot = Snapshot(
    id: string, model: string, status: Status, output: seq<OutputItem>, outputText: string, usage: Usage,
    previousID: string, conversationID: string, store: bool, error: Option<(string, string)>)

  datatype Body =
    | ResponseCreated(response: Snapshot)
    | ResponseInProgress(response: Snapshot)
    | ItemAdded(outputIndex: nat, item: OutputItem)
    | PartAdded(itemID: string, outputIndex: nat, part: ContentPart)
    | TextDeltaOut(itemID: string, outputIndex: nat, delta: string)
    | RefusalDeltaOut(itemID: string, outputIndex: nat, delta: string)
    | TextDone(itemID: string, outputIndex: nat, text: string)
    | RefusalDone(itemID: string, outputIndex: nat, text: string)
    | PartDone(itemID: string, outputIndex: nat, part: ContentPart)
    | ArgumentsDelta(itemID: string, outputIndex: nat, delta: string)
    | ArgumentsDone(itemID: string, outputIndex: nat, arguments: string, name: string)
    | SummaryAdded(itemID: string, outputIndex: nat)
    | SummaryDelta(itemID: string, outputIndex: nat, delta: string)
    | SummaryTextDone(itemID: string, outputIndex: nat, text: string)
    | SummaryDone(itemID: string, outputIndex: nat, text: string)
    | ItemDone(outputIndex: nat, item: OutputItem)
    | ResponseCompleted(response: Snapshot)
    | ResponseIncomplete(response: Snapshot)
    | ResponseFailed(response: Snapshot)

  datatype Wire = Wire(sequence: nat, body: Body)

  /** What is fixed before the first event: `SetRefusalMode` and `SetState`. */
  datatype Config = Config(refusal: bool, previousID: string, conversationID: string, store: bool)

  datatype Kind = TextKind | ToolKind | ReasoningKind

  /** An open block; `buffer` is its text or arguments builder, of which its kind uses one. */
  datatype StreamBlock = StreamBlock(kind: Kind, outputIndex: nat, itemID: string, callID: string, name: string, buffer: string)

  datatype State = State(
    id: string, model: string, sequence: nat, started: bool, stopped: bool, usage: Usage,
    output: seq<OutputItem>, blocks: map<int, StreamBlock>, allText: string, written: seq<Wire>)

  const INITIAL := State("", "", 0, false, false, NO_USAGE, [], map[], "", [])

  datatype Outcome = Outcome(ok: bool, state: State)

  function NormalizeID(id: string): string {
    if IsPrefix("resp_", id) then id else if id == "" then "resp_gateway" else "resp_" + id
  }

  function Prefix(kind: Kind): string {
    match kind
    case TextKind => "msg_gateway_"
    case ToolKind => "fc_gateway_"
    case ReasoningKind => "rs_gateway_"
  }

  function ItemID(kind: Kind, position: nat): string {
    Prefix(kind) + Decimal.Print(position)
  }

  /** The item a block announces when it opens. */
  function Announced(b: StreamBlock): OutputItem {
    match b.kind
    case TextKind => MessageOut(b.itemID, InProgress, [])
    case ToolKind => CallOut(b.itemID, InProgress, b.callID, b.name, "")
    case ReasoningKind => ReasoningOut(b.itemID, InProgress, [])
  }

  function TextPart(c: Config, text: string): ContentPart {
    if c.refusal then RefusalPart(text) else OutputText(text)
  }

  function Finished(c: Config, b: StreamBlock): OutputItem {
    match b.kind
    case TextKind => MessageOut(b.itemID, Completed, [TextPart(c, b.buffer)])
    case ToolKind => CallOut(b.itemID, Completed, b.callID, b.name, OrEmptyObject(b.buffer))
    case ReasoningKind => ReasoningOut(b.itemID, Completed, [b.buffer])
  }

  function Write(s: State, body: Body): State {
    s.(sequence := s.sequence + 1, written := s.written + [Wire(s.sequence, body)])
  }

  function Snap(c: Config, s: State, status: Status): Snapshot {
    Snapshot(s.id, s.model, status, s.output, s.allText, s.usage, c.previousID, c.conversationID, c.store, None)
  }

  function StartResponse(c: Config, s: State, id: string, model: string): Outcome {
    if s.started then Outcome(false, s)
    else
      var t := s.(started := true, id := NormalizeID(id), model := model);
      var u := Write(t, ResponseCreated(Snap(c, t, InProgress)));
      Outcome(true, Write(u, ResponseInProgress(Snap(c, u, InProgress))))
  }

  /** Opening a block appends its item and announces it. */
  function OpenBlock(s: State, index: int, b: StreamBlock): State {
    Write(s.(blocks := s.blocks[index := b], output := s.output + [Announced(b)]),
          ItemAdded(b.outputIndex, Announced(b)))
  }

  /** Appending to the builder of an open block. */
  function Grow(s: State, index: int, delta: string): State
    requires index in s.blocks
  {
    s.(blocks := s.blocks[index := s.blocks[index].(buffer := s.blocks[index].buffer + delta)])
  }

  function AddText(c: Config, s: State, index: int, text: string): State
    requires index in s.blocks
  {
    var b := s.blocks[index];
    if c.refusal then Write(Grow(s, index, text), RefusalDeltaOut(b.itemID, b.outputIndex, text))
    else
      Write(Grow(s, index, text).(allText := s.allText + text), TextDeltaOut(b.itemID, b.outputIndex, text))
  }

  function AddThinking(s: State, index: int, thinking: string): State
    requires index in s.blocks
  {
    if thinking == "" then s
    else
      var b := s.blocks[index];
      Write(Grow(s, index, thinking), SummaryDelta(b.itemID, b.outputIndex, thinking))
  }

  function StartContent(c: Config, s: State, index: int, block: Block): Outcome {
    if !s.started || s.stopped || index in s.blocks then Outcome(false, s)
    else
      var n := |s.output|;
      match block
      case TextBlock(text) =>
        var b := StreamBlock(TextKind, n, ItemID(TextKind, n), "", "", "");
        var t := Write(OpenBlock(s, index, b), PartAdded(b.itemID, n, TextPart(c, text)));
        Outcome(true, if text == "" then t else AddText(c, t, index, text))
      case ReasoningBlock(thinking, signature, redacted) =>
        if signature != "" || redacted != "" then Outcome(false, s)
        else
          var b := StreamBlock(ReasoningKind, n, ItemID(ReasoningKind, n), "", "", "");
          Outcome(true, AddThinking(Write(OpenBlock(s, index, b), SummaryAdded(b.itemID, n)), index, thinking))
      case _ => Outcome(false, s)
  }

  function StartToolCall(s: State, index: int, block: Block): Outcome {
    if !s.started || s.stopped || index in s.blocks || !block.ToolCallBlock? then Outcome(false, s)
    else
      var n := |s.output|;
      Outcome(true, OpenBlock(s, index, StreamBlock(ToolKind, n, ItemID(ToolKind, n), block.id, block.name, "")))
  }

  predicate HasOpen(s: State, index: int, kind: Kind) {
    index in s.blocks && s.blocks[index].kind == kind
  }

  function ToolDeltaStep(s: State, index: int, delta: Option<ToolDelta>): Outcome {
    if !HasOpen(s, index, ToolKind) || delta.None? then Outcome(false, s)
    else if delta.value.arguments == "" then Outcome(true, s)
    else
      var b := s.blocks[index];
      Outcome(true, Write(Grow(s, index, delta.value.arguments),
                          ArgumentsDelta(b.itemID, b.outputIndex, delta.value.arguments)))
  }

  /** The events that precede `ItemDone` when a block closes. */
  function ClosingEvents(c: Config, b: StreamBlock): seq<Body> {
    match b.kind
    case TextKind =>
      [if c.refusal then RefusalDone(b.itemID, b.outputIndex, b.buffer) else TextDone(b.itemID, b.outputIndex, b.buffer),
       PartDone(b.itemID, b.outputIndex, TextPart(c, b.buffer))]
    case ToolKind => [ArgumentsDone(b.itemID, b.outputIndex, OrEmptyObject(b.buffer), b.name)]
    case ReasoningKind =>
      [SummaryTextDone(b.itemID, b.outputIndex, b.buffer), SummaryDone(b.itemID, b.outputIndex, b.buffer)]
  }

  function WriteAll(s: State, bodies: seq<Body>): State
    decreases |bodies|
  {
    if bodies == [] then s else WriteAll(Write(s, bodies[0]), bodies[1..])
  }

  lemma {:induction false} WriteAllKeeps(s: State, bodies: seq<Body>)
    ensures var t := WriteAll(s, bodies); t == s.(sequence := t.sequence, written := t.written)
    decreases |bodies|
  {
    if bodies != [] {
      WriteAllKeeps(Write(s, bodies[0]), bodies[1..]);
    }
  }

  /** A position outside the output would panic; `EncoderInvariant` shows no block has one. */
  function StopContent(c: Config, s: State, index: int): Outcome {
    if index !in s.blocks then Outcome(false, s)
    else
      var b := s.blocks[index];
      var t := WriteAll(s.(blocks := s.blocks - {index}), ClosingEvents(c, b));
      if b.outputIndex >= |t.output| then Outcome(false, t)
      else
        Outcome(true, Write(t.(output := t.output[b.outputIndex := Finished(c, b)]),
                            ItemDone(b.outputIndex, Finished(c, b))))
  }

  function StopResponse(c: Config, s: State, reason: StopReason): Outcome {
    if !s.started || s.stopped || s.blocks != map[] then Outcome(false, s)
    else
      var t := s.(stopped := true);
      match reason
      case EndTurn => Outcome(true, Write(t, ResponseCompleted(Snap(c, t, Completed))))
      case StopSequence => Outcome(true, Write(t, ResponseCompleted(Snap(c, t, Completed))))
      case ToolUse => Outcome(true, Write(t, ResponseCompleted(Snap(c, t, Completed))))
      case ContentFilter =>
        if c.refusal then Outcome(true, Write(t, ResponseCompleted(Snap(c, t, Completed)))) else Outcome(false, t)
      case MaxTokens => Outcome(true, Write(t, ResponseIncomplete(Snap(c, t, Incomplete))))
      case Unknown => Outcome(false, t)
  }

  function FailResponse(c: Config, s: State, error: Option<StreamError>): Outcome {
    if !s.started || s.stopped || error.None? then Outcome(false, s)
    else
      var t := s.(stopped := true);
      var code := if error.value.code == "" then "server_error" else error.value.code;
      var snapshot := Snap(c, t, Failed).(error := Some((code, error.value.message)));
      Outcome(true, Write(t, ResponseFailed(snapshot)))
  }

  function Encode(c: Config, s: State, e: Event): Outcome {
    match e
    case ResponseStart(id, model) => StartResponse(c, s, id, model)
    case ContentStart(index, block) => StartContent(c, s, index, block)
    case TextDelta(index, text) =>
      if HasOpen(s, index, TextKind) then Outcome(true, AddText(c, s, index, text)) else Outcome(false, s)
    case ToolCallStart(index, block) => StartToolCall(s, index, block)
    case ToolCallDelta(index, delta) => ToolDeltaStep(s, index, delta)
    case ContentStop(index) => StopContent(c, s, index)
    case UsageReport(usage) => Outcome(true, if usage.Some? then s.(usage := usage.value) else s)
    case ResponseStop(reason, _) => StopResponse(c, s, reason)
    case ReasoningDelta(index, thinking) =>
      if HasOpen(s, index, ReasoningKind) then Outcome(true, AddThinking(s, index, thinking)) else Outcome(false, s)
    case Failure(error) => FailResponse(c, s, error)
    case AudioDelta(_, _, _) => Outcome(false, s)
  }

  /** A run in which the caller goes on after errors; a run without errors is the special case. */
  function EncodeAll(c: Config, events: seq<Event>): State {
    if events == [] then INITIAL
    else Encode(c, EncodeAll(c, events[..|events| - 1]), events[|events| - 1]).state
  }

  predicate AcceptsAll(c: Config, events: seq<Event>) {
    events == [] ||
    (AcceptsAll(c, events[..|events| - 1]) &&
     Encode(c, EncodeAll(c, events[..|events| - 1]), events[|events| - 1]).ok)
  }

  /** The encoder object; `written` stands for the bytes sent to the client. */
  class StreamEncoder {
    var id: string
    var model: string
    var sequence: nat
    var started: bool
    var stopped: bool
    var latestUsage: Usage
    var output: seq<OutputItem>
    var blocks: map<int, StreamBlock>
    var allText: string
    var refusalMode: bool
    var previousID: string
    var conversationID: string
    var store: bool
    var written: seq<Wire>

    constructor ()
      ensures Abs() == INITIAL && Cfg() == Config(false, "", "", false)
    {
      id, model, sequence, started, stopped, latestUsage := "", "", 0, false, false, NO_USAGE;
      output, blocks, allText, refusalMode, written := [], map[], "", false, [];
      previousID, conversationID, store := "", "", false;
    }

    function Abs(): State
      reads this
    {
      State(id, model, sequence, started, stopped, latestUsage, output, blocks, allText, written)
    }

    function Cfg(): Config
      reads this
    {
      Config(refusalMode, previousID, conversationID, store)
    }

    method SetRefusalMode(enabled: bool)
      modifies this`refusalMode
      ensures Cfg() == old(Cfg()).(refusal := enabled)
    {
      refusalMode := enabled;
    }

    method SetState(previousID: string, conversationID: string, store: bool)
      modifies this`previousID, this`conversationID, this`store
      ensures Cfg() == Config(refusalMode, previousID, conversationID, store)
    {
      this.previousID, this.conversationID, this.store := previousID, conversationID, store;
    }

    method EncodeEvent(e: Event) returns (ok: bool)
      modifies this
      ensures Outcome(ok, Abs()) == Encode(old(Cfg()), old(Abs()), e) && Cfg() == old(Cfg())
    {
      match e
      case ResponseStart(responseID, m) => ok := BeginResponse(responseID, m);
      case ContentStart(index, block) => ok := BeginContent(index, block);
      case TextDelta(index, text) =>
        if index !in blocks || blocks[index].kind != TextKind { return false; }
        AppendText(index, text);
        ok := true;
      case ToolCallStart(index, block) => ok := BeginToolCall(index, block);
      case ToolCallDelta(index, delta) => ok := AppendArguments(index, delta);
      case ContentStop(index) => ok := EndContent(index);
      case UsageReport(usage) =>
        if usage.Some? {
          latestUsage := usage.value;
        }
        ok := true;
      case ResponseStop(reason, _) => ok := EndResponse(reason);
      case ReasoningDelta(index, thinking) =>
        if index !in blocks || blocks[index].kind != ReasoningKind { return false; }
        AppendThinking(index, thinking);
        ok := true;
      case Failure(error) => ok := Fail(error);
      case AudioDelta(_, _, _) => ok := false;
    }

    method Send(body: Body)
      modifies this`sequence, this`written
      ensures Abs() == Write(old(Abs()), body)
    {
      written := written + [Wire(sequence, body)];
      sequence := sequence + 1;
    }

    method BeginResponse(responseID: string, m: string) returns (ok: bool)
      modifies this
      ensures Outcome(ok, Abs()) == StartResponse(old(Cfg()), old(Abs()), responseID, m) && Cfg() == old(Cfg())
    {
      if started { return false; }
      started := true;
      id := NormalizeID(responseID);
      model := m;
      Send(ResponseCreated(Snap(Cfg(), Abs(), InProgress)));
      Send(ResponseInProgress(Snap(Cfg(), Abs(), InProgress)));
      return true;
    }

    method Announce(index: int, b: StreamBlock)
      modifies this
      ensures Abs() == OpenBlock(old(Abs()), index, b) && Cfg() == old(Cfg())
    {
      blocks := blocks[index := b];
      output := output + [Announced(b)];
      Send(ItemAdded(b.outputIndex, Announced(b)));
    }

    method BeginContent(index: int, block: Block) returns (ok: bool)
      modifies this
      ensures Outcome(ok, Abs()) == StartContent(old(Cfg()), old(Abs()), index, block) && Cfg() == old(Cfg())
    {
      if !started || stopped || index in blocks { return false; }
      var n := |output|;
      match block
      case ReasoningBlock(thinking, signature, redacted) =>
        if signature != "" || redacted != "" { return false; }
        var itemID := ItemID(ReasoningKind, n);
        Announce(index, StreamBlock(ReasoningKind, n, itemID, "", "", ""));
        Send(SummaryAdded(itemID, n));
        AppendThinking(index, thinking);
        return true;
      case TextBlock(text) =>
        var itemID := ItemID(TextKind, n);
        Announce(index, StreamBlock(TextKind, n, itemID, "", "", ""));
        Send(PartAdded(itemID, n, if refusalMode then RefusalPart(text) else OutputText(text)));
        if text != "" {
          AppendText(index, text);
        }
        return true;
      case _ => return false;
    }

    method AppendText(index: int, text: string)
      requires index in blocks
      modifies this
      ensures Abs() == AddText(old(Cfg()), old(Abs()), index, text) && Cfg() == old(Cfg())
    {
      var b := blocks[index];
      blocks := blocks[index := b.(buffer := b.buffer + text)];
      if refusalMode {
        Send(RefusalDeltaOut(b.itemID, b.outputIndex, text));
        return;
      }
      allText := allText + text;
      Send(TextDeltaOut(b.itemID, b.outputIndex, text));
    }

    method AppendThinking(index: int, thinking: string)
      requires index in blocks
      modifies this
      ensures Abs() == AddThinking(old(Abs()), index, thinking) && Cfg() == old(Cfg())
    {
      if thinking == "" { return; }
      var b := blocks[index];
      blocks := blocks[index := b.(buffer := b.buffer + thinking)];
      Send(SummaryDelta(b.itemID, b.outputIndex, thinking));
    }

    method BeginToolCall(index: int, block: Block) returns (ok: bool)
      modifies this
      ensures Outcome(ok, Abs()) == StartToolCall(old(Abs()), index, block) && Cfg() == old(Cfg())
    {
      if !started || stopped || index in blocks || !block.ToolCallBlock? { return false; }
      var n := |output|;
      Announce(index, StreamBlock(ToolKind, n, ItemID(ToolKind, n), block.id, block.name, ""));
      return true;
    }

    method AppendArguments(index: int, delta: Option<ToolDelta>) returns (ok: bool)
      modifies this
      ensures Outcome(ok, Abs()) == ToolDeltaStep(old(Abs()), index, delta) && Cfg() == old(Cfg())
    {
      if index !in blocks || blocks[index].kind != ToolKind || delta.None? { return false; }
      if delta.value.arguments == "" { return true; }
      var b := blocks[index];
      blocks := blocks[index := b.(buffer := b.buffer + delta.value.arguments)];
      Send(ArgumentsDelta(b.itemID, b.outputIndex, delta.value.arguments));
      return true;
    }

    method EndContent(index: int) returns (ok: bool)
      modifies this
      ensures Outcome(ok, Abs()) == StopContent(old(Cfg()), old(Abs()), index) && Cfg() == old(Cfg())
    {
      if index !in blocks { return false; }
      var b := blocks[index];
      blocks := blocks - {index};
      var events := ClosingEvents(Cfg(), b);
      ghost var begun := Abs();
      for k := 0 to |events|
        invariant Cfg() == old(Cfg())
        invariant WriteAll(Abs(), events[k..]) == WriteAll(begun, events)
      {
        assert events[k..][0] == events[k] && events[k..][1..] == events[k + 1..];
        Send(events[k]);
      }
      if b.outputIndex >= |output| { return false; }
      output := output[b.outputIndex := Finished(Cfg(), b)];
      Send(ItemDone(b.outputIndex, output[b.outputIndex]));
      return true;
    }

    method EndResponse(reason: StopReason) returns (ok: bool)
      modifies this
      ensures Outcome(ok, Abs()) == StopResponse(old(Cfg()), old(Abs()), reason) && Cfg() == old(Cfg())
    {
      if !started || stopped || blocks != map[] { return false; }
      stopped := true;
      match reason {
        case ContentFilter =>
          if !refusalMode { return false; }
          Send(ResponseCompleted(Snap(Cfg(), Abs(), Completed)));
        case MaxTokens => Send(ResponseIncomplete(Snap(Cfg(), Abs(), Incomplete)));
        case Unknown => return false;
        case _ => Send(ResponseCompleted(Snap(Cfg(), Abs(), Completed)));
      }
      return true;
    }

    method Fail(error: Option<StreamError>) returns (ok: bool)
      modifies this
      ensures Outcome(ok, Abs()) == FailResponse(old(Cfg()), old(Abs()), error) && Cfg() == old(Cfg())
    {
      if !started || stopped || error.None? { return false; }
      stopped := true;
      var code := error.value.code;
      if code == "" {
        code := "server_error";
      }
      Send(ResponseFailed(Snap(Cfg(), Abs(), Failed).(error := Some((code, error.value.message)))));
      return true;
    }
  }
}
