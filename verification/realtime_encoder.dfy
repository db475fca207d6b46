/** Canonical events written as OpenAI Realtime server events. */
module RealtimeEncoder {
  import opened Llm
  import Decimal
  import L = LiveDecoder

  datatype Part = TextPart(text: string) | AudioPart

  datatype Item =
    | MessageItem(id: string, completed: bool, content: seq<Part>)
    | CallItem(id: string, completed: bool, callID: string, name: string, arguments: string)

  datatype Snapshot = Snapshot(id: string, completed: bool, output: seq<Item>, audio: bool, usage: Option<Usage>)

  datatype Body =
    | ResponseCreated(response: Snapshot)
    | ItemAdded(responseID: string, outputIndex: nat, item: Item)
    | PartAdded(responseID: string, itemID: string, outputIndex: nat, part: Part)
    | TextDeltaOut(responseID: string, itemID: string, outputIndex: nat, delta: string)
    | AudioDeltaOut(responseID: string, itemID: string, outputIndex: nat, delta: string)
    | ArgumentsDelta(responseID: string, itemID: string, outputIndex: nat, callID: string, delta: string)
    | TextDone(responseID: string, itemID: string, outputIndex: nat, text: string)
    | AudioDone(responseID: string, itemID: string, outputIndex: nat)
    | ArgumentsDone(responseID: string, itemID: string, outputIndex: nat, callID: string, name: string, arguments: string)
    | PartDone(responseID: string, itemID: string, outputIndex: nat, part: Part)
    | ItemDone(responseID: string, outputIndex: nat, item: Item)
    | ResponseDone(response: Snapshot)

  datatype Wire = Wire(eventID: string, body: Body)

  datatype State = State(
    sequence: nat, responseID: string, text: string, arguments: string, usage: Usage,
    started: bool, contentOpen: bool, stopped: bool, kind: L.Kind, index: int, itemID: string, callID: string, name: string,
    output: seq<Item>, written: seq<Wire>)

  const INITIAL := State(0, "", "", "", NO_USAGE, false, false, false, L.NoKind, 0, "", "", "", [], [])

  function GeneratedID(prefix: string, n: nat): string {
    prefix + Decimal.Print(n)
  }

  const EVENT := "event_gateway_"
  const ITEM := "item_gateway_"
  const RESPONSE := "resp_gateway_"

  function Send(e: State, body: Body): State {
    e.(sequence := e.sequence + 1, written := e.written + [Wire(GeneratedID(EVENT, e.sequence + 1), body)])
  }

  function Snap(e: State, completed: bool): Snapshot {
    Snapshot(e.responseID, completed, e.output, e.kind == L.AudioKind,
             if e.usage.input != 0 || e.usage.output != 0 || e.usage.cacheRead != 0 || e.usage.reasoning != 0
             then Some(e.usage) else None)
  }

  function Reset(e: State): State {
    State(e.sequence, "", "", "", NO_USAGE, e.started, false, false, L.NoKind, 0, "", "", "", [], e.written)
  }

  function StartResponse(e: State, id: string): Option<State> {
    if e.started && !e.stopped then None
    else
      var t := Reset(e).(started := true);
      var u := if id != "" then t.(responseID := id)
               else t.(responseID := GeneratedID(RESPONSE, t.sequence + 1), sequence := t.sequence + 1);
      Some(Send(u, ResponseCreated(Snap(u, false))))
  }

  function Active(e: State): bool {
    e.started && !e.stopped && !e.contentOpen
  }

  /** The item that takes shape at the end of the output. */
  function Open(e: State, index: int, kind: L.Kind): State {
    e.(contentOpen := true, index := index, itemID := GeneratedID(ITEM, e.sequence + 1), sequence := e.sequence + 1,
       kind := kind)
  }

  function Announce(e: State, part: Part): State {
    var t := Send(e, ItemAdded(e.responseID, |e.output|, MessageItem(e.itemID, false, [])));
    Send(t, PartAdded(e.responseID, e.itemID, |e.output|, part))
  }

  function OpenCall(e: State, index: int, id: string, name: string): State {
    var t := Open(e, index, L.ToolKind).(callID := id, name := name, arguments := "");
    Send(t, ItemAdded(t.responseID, |t.output|, CallItem(t.itemID, false, id, name, "")))
  }

  function StartContent(e: State, index: int, block: Block): Option<State> {
    if !Active(e) then None
    else
      match block
      case TextBlock(_) => Some(Announce(Open(e, index, L.TextKind).(text := ""), TextPart("")))
      case AudioBlock(mediaType) =>
        if mediaType != L.PCM_24K then None else Some(Announce(Open(e, index, L.AudioKind), AudioPart))
      case ToolCallBlock(id, name, _) =>
        if id == "" || name == "" then None else Some(OpenCall(e, index, id, name))
      case _ => None
  }

  predicate Within(e: State, kind: L.Kind, index: int) {
    e.contentOpen && !e.stopped && e.kind == kind && e.index == index
  }

  function StopContent(e: State, index: int): Option<State> {
    if !e.contentOpen || e.stopped || e.index != index then None
    else
      var t, k := e.(contentOpen := false), |e.output|;
      match e.kind
      case TextKind =>
        var item := MessageItem(e.itemID, true, [TextPart(e.text)]);
        var u := Send(t.(output := t.output + [item]), TextDone(e.responseID, e.itemID, k, e.text));
        Some(Send(Send(u, PartDone(e.responseID, e.itemID, k, TextPart(e.text))), ItemDone(e.responseID, k, item)))
      case AudioKind =>
        var item := MessageItem(e.itemID, true, [AudioPart]);
        var u := Send(t.(output := t.output + [item]), AudioDone(e.responseID, e.itemID, k));
        Some(Send(Send(u, PartDone(e.responseID, e.itemID, k, AudioPart)), ItemDone(e.responseID, k, item)))
      case ToolKind =>
        var arguments := OrEmptyObject(e.arguments);
        var item := CallItem(e.itemID, true, e.callID, e.name, arguments);
        var u := Send(t.(output := t.output + [item]),
                      ArgumentsDone(e.responseID, e.itemID, k, e.callID, e.name, arguments));
        Some(Send(u, ItemDone(e.responseID, k, item)))
      case NoKind => None
  }

  function StopResponse(e: State, reason: StopReason): Option<State> {
    if !Active(e) || reason !in {EndTurn, StopSequence, ToolUse} then None
    else
      var t := e.(stopped := true);
      Some(Send(t, ResponseDone(Snap(t, true))))
  }

  /** One event; what was written by a failed call is discarded with the session. */
  function Encode(e: State, event: Event): Option<State> {
    match event
    case ResponseStart(id, _) => StartResponse(e, id)
    case ContentStart(index, block) => StartContent(e, index, block)
    case ToolCallStart(index, block) => StartContent(e, index, block)
    case TextDelta(index, delta) =>
      if !Within(e, L.TextKind, index) then None
      else Some(Send(e.(text := e.text + delta), TextDeltaOut(e.responseID, e.itemID, |e.output|, delta)))
    case AudioDelta(index, delta, mediaType) =>
      if !Within(e, L.AudioKind, index) || (mediaType != "" && mediaType != L.PCM_24K) then None
      else Some(Send(e, AudioDeltaOut(e.responseID, e.itemID, |e.output|, delta)))
    case ToolCallDelta(index, delta) =>
      if !Within(e, L.ToolKind, index) || delta.None? then None
      else
        var piece := delta.value.arguments;
        Some(Send(e.(arguments := e.arguments + piece),
                  ArgumentsDelta(e.responseID, e.itemID, |e.output|, e.callID, piece)))
    case UsageReport(usage) => Some(if usage.Some? then e.(usage := usage.value) else e)
    case ContentStop(index) => StopContent(e, index)
    case ResponseStop(reason, _) => StopResponse(e, reason)
    case _ => None
  }

  function EncodeAll(e: State, events: seq<Event>): Option<State> {
    if events == [] then Some(e)
    else
      match EncodeAll(e, events[..|events| - 1])
      case None => None
      case Some(t) => Encode(t, events[|events| - 1])
  }

  lemma EncodeSnoc(e: State, events: seq<Event>, event: Event)
    ensures EncodeAll(e, events + [event]) == (match EncodeAll(e, events) case None => None case Some(t) => Encode(t, event))
  {}

  class ServerEncoder {
    var sequence: nat
    var responseID: string
    var text: string
    var arguments: string
    var usage: Usage
    var started: bool
    var contentOpen: bool
    var stopped: bool
    var activeKind: L.Kind
    var activeIndex: int
    var activeItemID: string
    var activeCallID: string
    var activeName: string
    var output: seq<Item>
    var written: seq<Wire>

    constructor ()
      ensures Abs() == INITIAL
    {
      sequence, responseID, text, arguments, usage := 0, "", "", "", NO_USAGE;
      started, contentOpen, stopped, activeKind, activeIndex := false, false, false, L.NoKind, 0;
      activeItemID, activeCallID, activeName, output, written := "", "", "", [], [];
    }

    function Abs(): State
      reads this
    {
      State(sequence, responseID, text, arguments, usage, started, contentOpen, stopped, activeKind, activeIndex,
            activeItemID, activeCallID, activeName, output, written)
    }

    method NextID(prefix: string) returns (id: string)
      modifies this`sequence
      ensures sequence == old(sequence) + 1 && id == GeneratedID(prefix, sequence)
    {
      sequence := sequence + 1;
      id := prefix + Decimal.Print(sequence);
    }

    method Emit(body: Body)
      modifies this`sequence, this`written
      ensures Abs() == Send(old(Abs()), body)
    {
      var id := NextID(EVENT);
      written := written + [Wire(id, body)];
    }

    method ClearContent()
      modifies this`contentOpen, this`activeKind, this`activeIndex, this`activeItemID, this`activeCallID, this`activeName
      ensures !contentOpen && activeKind == L.NoKind && activeIndex == 0
      ensures activeItemID == "" && activeCallID == "" && activeName == ""
    {
      contentOpen := false;
      activeKind := L.NoKind;
      activeIndex := 0;
      activeItemID := "";
      activeCallID := "";
      activeName := "";
    }

    method Clear()
      modifies this
      ensures Abs() == Reset(old(Abs()))
    {
      ClearContent();
      responseID := "";
      text := "";
      arguments := "";
      usage := NO_USAGE;
      stopped := false;
      output := [];
    }

    method BeginResponse(id: string) returns (ok: bool)
      modifies this
      ensures ok == StartResponse(old(Abs()), id).Some? && (ok ==> StartResponse(old(Abs()), id) == Some(Abs()))
    {
      hide GeneratedID, Snap;
      if started && !stopped { return false; }
      Clear();
      started := true;
      responseID := id;
      if responseID == "" {
        responseID := NextID(RESPONSE);
      }
      Emit(ResponseCreated(Snap(Abs(), false)));
      return true;
    }

    method OpenItem(index: int, kind: L.Kind)
      modifies this`contentOpen, this`activeIndex, this`activeItemID, this`activeKind, this`sequence
      ensures Abs() == Open(old(Abs()), index, kind)
    {
      contentOpen := true;
      activeIndex := index;
      activeItemID := NextID(ITEM);
      activeKind := kind;
    }

    method BeginCall(index: int, id: string, name: string)
      modifies this
      ensures Abs() == OpenCall(old(Abs()), index, id, name)
    {
      hide Open;
      OpenItem(index, L.ToolKind);
      activeCallID := id;
      activeName := name;
      arguments := "";
      Emit(ItemAdded(responseID, |output|, CallItem(activeItemID, false, id, name, "")));
    }

    method BeginContent(index: int, block: Block) returns (ok: bool)
      modifies this
      ensures ok == StartContent(old(Abs()), index, block).Some?
      ensures ok ==> StartContent(old(Abs()), index, block) == Some(Abs())
    {
      hide GeneratedID, Announce, Open, OpenCall;
      if !started || stopped || contentOpen { return false; }
      ok := true;
      match block
      case TextBlock(_) =>
        OpenItem(index, L.TextKind);
        text := "";
        AnnounceMessage(TextPart(""));
      case AudioBlock(mediaType) =>
        if mediaType != L.PCM_24K { return false; }
        OpenItem(index, L.AudioKind);
        AnnounceMessage(AudioPart);
      case ToolCallBlock(id, name, _) =>
        if id == "" || name == "" { return false; }
        BeginCall(index, id, name);
      case _ => ok := false;
    }

    method AnnounceMessage(part: Part)
      modifies this`sequence, this`written
      ensures Abs() == Announce(old(Abs()), part)
    {
      Emit(ItemAdded(responseID, |output|, MessageItem(activeItemID, false, [])));
      Emit(PartAdded(responseID, activeItemID, |output|, part));
    }

    method EndContent(index: int) returns (ok: bool)
      modifies this
      ensures ok == StopContent(old(Abs()), index).Some? && (ok ==> StopContent(old(Abs()), index) == Some(Abs()))
    {
      if !contentOpen || stopped || index != activeIndex { return false; }
      contentOpen := false;
      var k := |output|;
      match activeKind
      case TextKind =>
        var item := MessageItem(activeItemID, true, [TextPart(text)]);
        output := output + [item];
        Emit(TextDone(responseID, activeItemID, k, text));
        Emit(PartDone(responseID, activeItemID, k, TextPart(text)));
        Emit(ItemDone(responseID, k, item));
        ok := true;
      case AudioKind =>
        var item := MessageItem(activeItemID, true, [AudioPart]);
        output := output + [item];
        Emit(AudioDone(responseID, activeItemID, k));
        Emit(PartDone(responseID, activeItemID, k, AudioPart));
        Emit(ItemDone(responseID, k, item));
        ok := true;
      case ToolKind =>
        var whole := if arguments == "" then "{}" else arguments;
        var item := CallItem(activeItemID, true, activeCallID, activeName, whole);
        output := output + [item];
        Emit(ArgumentsDone(responseID, activeItemID, k, activeCallID, activeName, whole));
        Emit(ItemDone(responseID, k, item));
        ok := true;
      case NoKind => ok := false;
    }

    method EncodeEvent(event: Event) returns (ok: bool)
      modifies this
      ensures ok == Encode(old(Abs()), event).Some? && (ok ==> Encode(old(Abs()), event) == Some(Abs()))
    {
      hide StartResponse, StartContent, StopContent, GeneratedID, Snap;
      ok := true;
      match event
      case ResponseStart(id, _) => ok := BeginResponse(id);
      case ContentStart(index, block) => ok := BeginContent(index, block);
      case ToolCallStart(index, block) => ok := BeginContent(index, block);
      case TextDelta(index, delta) =>
        if !contentOpen || stopped || activeKind != L.TextKind || index != activeIndex { return false; }
        text := text + delta;
        Emit(TextDeltaOut(responseID, activeItemID, |output|, delta));
      case AudioDelta(index, delta, mediaType) =>
        if !contentOpen || stopped || activeKind != L.AudioKind || index != activeIndex { return false; }
        if mediaType != "" && mediaType != L.PCM_24K { return false; }
        Emit(AudioDeltaOut(responseID, activeItemID, |output|, delta));
      case ToolCallDelta(index, delta) =>
        if !contentOpen || stopped || activeKind != L.ToolKind || index != activeIndex { return false; }
        if delta.None? { return false; }
        arguments := arguments + delta.value.arguments;
        Emit(ArgumentsDelta(responseID, activeItemID, |output|, activeCallID, delta.value.arguments));
      case UsageReport(reported) =>
        if reported.Some? {
          usage := reported.value;
        }
      case ContentStop(index) => ok := EndContent(index);
      case ResponseStop(reason, _) =>
        if !started || stopped || contentOpen { return false; }
        if reason !in {EndTurn, StopSequence, ToolUse} { return false; }
        stopped := true;
        Emit(ResponseDone(Snap(Abs(), true)));
      case _ => ok := false;
    }
  }
}
