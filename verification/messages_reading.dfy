/** Messages events read directly, and the decoder compared with that reading. */
module MessagesReading {
  import opened Llm
  import C = Canonical
  import opened MessagesStream
  import Sorting

  datatype Slot = TextSlot | CallSlot(call: nat) | ThinkingSlot

  /** `open` holds the blocks being written, `seen` every index used, `thoughts` the text of each thinking
      block. `echoed` is the text with what block starts carried said twice, and `doubled` counts that. */
  datatype Reading = Reading(
    started: bool, id: string, model: string, text: string, calls: seq<C.Call>, done: seq<C.Call>,
    thoughts: map<int, string>, open: map<int, Slot>, seen: set<int>, usage: Usage, pending: Option<StopReason>,
    stop: Option<StopReason>, echoed: string, doubled: nat)

  const UNREAD := Reading(false, "", "", "", [], [], map[], map[], {}, NO_USAGE, None, None, "", 0)

  predicate Live(r: Reading) {
    r.started && r.stop.None?
  }

  predicate HasCall(r: Reading, index: int) {
    index in r.open && r.open[index].CallSlot? && r.open[index].call < |r.calls|
  }

  predicate HasSlot(r: Reading, index: int, slot: Slot) {
    index in r.open && r.open[index] == slot
  }

  function Open(r: Reading, index: int, slot: Slot): Reading {
    r.(open := r.open[index := slot], seen := r.seen + {index})
  }

  function Think(r: Reading, index: int, thinking: string): Reading {
    r.(thoughts := r.thoughts[index := (if index in r.thoughts then r.thoughts[index] else "") + thinking])
  }

  /** A tool block that starts with an input has no stream form the model reads. */
  function ReadStart(r: Reading, index: int, block: WireBlock): Option<Reading> {
    if !Live(r) || index in r.seen then None
    else
      match block
      case TextStart(text) =>
        Some(Open(r, index, TextSlot).(
             text := r.text + text, echoed := r.echoed + text + text, doubled := r.doubled + |text|))
      case ToolUseStart(id, name, input) =>
        if input !in {"", "null", "{}"} then None
        else Some(Open(r, index, CallSlot(|r.calls|)).(calls := r.calls + [C.Call(id, name, "")]))
      case ThinkingStart(thinking) => Some(Think(Open(r, index, ThinkingSlot), index, thinking))
      case RedactedStart => Some(Think(Open(r, index, ThinkingSlot), index, ""))
      case UnknownStart => None
  }

  function ReadPiece(r: Reading, index: int, delta: WireDelta): Option<Reading> {
    if !Live(r) then None
    else
      match delta
      case TextPiece(text) =>
        if HasSlot(r, index, TextSlot) then Some(r.(text := r.text + text, echoed := r.echoed + text)) else None
      case InputPiece(partial) =>
        if !HasCall(r, index) then None
        else
          var k := r.open[index].call;
          Some(r.(calls := r.calls[k := r.calls[k].(arguments := r.calls[k].arguments + partial)]))
      case ThinkingPiece(thinking) =>
        if HasSlot(r, index, ThinkingSlot) then Some(Think(r, index, thinking)) else None
      case SignaturePiece => if HasSlot(r, index, ThinkingSlot) then Some(r) else None
      case UnknownPiece => None
  }

  function ReadFrame(r: Reading, frame: Frame): Option<Reading> {
    match frame
    case NoData => Some(r)
    case Ping => Some(r)
    case MessageStart(id, model, usage) =>
      if r.started then None
      else Some(r.(started := true, id := id, model := model, usage := Merge(r.usage, usage)))
    case BlockStart(index, block) => ReadStart(r, index, block)
    case BlockDelta(index, delta) => ReadPiece(r, index, delta)
    case BlockStop(index) =>
      if !Live(r) || index !in r.open then None
      else if HasCall(r, index) then
        Some(r.(open := r.open - {index}, done := r.done + [r.calls[r.open[index].call]]))
      else if r.open[index].CallSlot? then None
      else Some(r.(open := r.open - {index}))
    case MessageDelta(reason, _, usage) =>
      if reason != "" && DecodeStop(reason) == Unknown then None
      else
        Some(r.(pending := if reason == "" then r.pending else Some(DecodeStop(reason)), usage := Merge(r.usage, usage)))
    case MessageStop => if !Live(r) || r.open != map[] || r.pending.None? then None else Some(r.(stop := r.pending))
    case _ => None
  }

  function Read(frames: seq<Frame>): Option<Reading> {
    if frames == [] then Some(UNREAD)
    else
      match Read(frames[..|frames| - 1])
      case None => None
      case Some(r) => ReadFrame(r, frames[|frames| - 1])
  }

  // ---------------------------------------------------------------- the decoder against the reading

  ghost predicate SameBlocks(d: Decoder, m: C.Message, r: Reading) {
    && C.WellFormed(m)
    && (forall i :: i in m.blocks ==> i in r.seen)
    && (forall i :: i in r.open ==> i in r.seen)
    && (forall i :: i in d.thinking <==> HasSlot(r, i, ThinkingSlot))
    && (forall i :: i in d.thinkingStarted ==> i in d.thinking)
    && (forall i :: i in m.open <==> i in r.open && (r.open[i].ThinkingSlot? ==> i in d.thinkingStarted))
    && (forall i :: HasSlot(r, i, ThinkingSlot) && i !in d.thinkingStarted ==> i !in m.blocks)
    && (forall i :: i in m.open ==>
          match r.open[i]
          case TextSlot => m.items[m.blocks[i]].TextItem?
          case CallSlot(k) => m.items[m.blocks[i]] == C.CallItem(k) && k < |m.calls|
          case ThinkingSlot => m.items[m.blocks[i]].ReasoningItem?)
  }

  ghost predicate SameContent(d: Decoder, m: C.Message, r: Reading) {
    && m.started == r.started == d.started && m.id == r.id && m.model == r.model
    && m.calls == r.calls && m.done == r.done && m.stop == r.stop
    && m.usage == r.usage == d.usage && d.pending == r.pending && d.pending != Some(Unknown)
    && d.stopped == r.stop.Some?
    && m.text == r.echoed && |r.echoed| == |r.text| + r.doubled && (r.doubled == 0 ==> r.echoed == r.text)
  }

  /** Each thinking block that said anything has its text in an item of its own, and no other item thinks. */
  ghost predicate SameThoughts(m: C.Message, r: Reading)
    requires C.WellFormed(m)
  {
    && (forall i :: i in r.thoughts ==> i in r.seen)
    && (forall i :: i in r.seen ==> i in m.blocks || i in r.thoughts)
    && (forall i :: HasSlot(r, i, ThinkingSlot) ==> i in r.thoughts)
    && (forall i :: i in r.thoughts ==>
          if i in m.blocks then m.items[m.blocks[i]] == C.ReasoningItem(r.thoughts[i]) else r.thoughts[i] == "")
    && (forall i :: i in m.blocks && m.items[m.blocks[i]].ReasoningItem? ==> i in r.thoughts)
  }

  ghost predicate Hears(d: Decoder, m: C.Message, r: Reading) {
    C.Run(d.emitted) == Some(m) && SameContent(d, m, r) && SameBlocks(d, m, r) && SameThoughts(m, r)
  }

  lemma Sent(d: Decoder, m: C.Message, e: Event) returns (n: C.Message)
    requires C.Run(d.emitted) == Some(m) && C.WellFormed(m) && C.Apply(m, e).Some?
    ensures C.Apply(m, e) == Some(n) && C.Run(d.emitted + [e]) == Some(n) && C.WellFormed(n)
  {
    n := C.Apply(m, e).value;
    C.RunSnoc(d.emitted, e);
    C.ApplyWellFormed(m, e);
  }

  /** An item added for a fresh index leaves the other items where they were. */
  lemma OthersKept(m: C.Message, n: C.Message, index: int)
    requires C.WellFormed(m) && m.items <= n.items && m.calls <= n.calls && n.blocks == m.blocks[index := |m.items|]
    ensures forall i :: i in m.blocks && i != index ==> n.items[n.blocks[i]] == m.items[m.blocks[i]]
  {
  }

  /** What leaves the thinking items alone leaves the thoughts alone. */
  lemma ThoughtsStay(m: C.Message, n: C.Message, r: Reading, q: Reading)
    requires C.WellFormed(m) && C.WellFormed(n) && SameThoughts(m, r)
    requires q.thoughts == r.thoughts && r.seen <= q.seen
    requires forall i :: i in q.seen ==> i in r.seen || i in n.blocks
    requires forall i :: HasSlot(q, i, ThinkingSlot) ==> HasSlot(r, i, ThinkingSlot)
    requires forall i :: i in m.blocks ==> i in n.blocks && n.items[n.blocks[i]] == m.items[m.blocks[i]]
    requires forall i :: i in n.blocks && i !in m.blocks ==> i !in r.thoughts && !n.items[n.blocks[i]].ReasoningItem?
    ensures SameThoughts(n, q)
  {
  }

  lemma Indexed(m: C.Message, n: C.Message)
    requires C.WellFormed(m) && C.WellFormed(n)
    ensures forall i :: i in m.blocks ==> m.blocks[i] < |m.items|
    ensures forall i :: i in n.blocks ==> n.blocks[i] < |n.items|
  {
  }

  lemma NotThought(d: Decoder, m: C.Message, r: Reading, index: int)
    requires Hears(d, m, r) && index !in r.seen
    ensures index !in r.thoughts && index !in m.blocks
  {
  }

  /** A visible block opened for a fresh index. */
  lemma BlocksOpened(d: Decoder, e: Decoder, m: C.Message, n: C.Message, r: Reading, q: Reading, index: int, slot: Slot)
    requires SameBlocks(d, m, r) && C.WellFormed(n) && index !in r.seen && !slot.ThinkingSlot?
    requires e.thinking == d.thinking && e.thinkingStarted == d.thinkingStarted
    requires q.open == r.open[index := slot] && q.seen == r.seen + {index}
    requires m.items <= n.items && |m.calls| <= |n.calls|
    requires n.blocks == m.blocks[index := |m.items|] && n.open == m.open + {index} && |n.items| > |m.items|
    requires forall i :: i in m.blocks && i != index ==> n.items[n.blocks[i]] == m.items[m.blocks[i]]
    requires if slot.TextSlot? then n.items[|m.items|].TextItem?
             else n.items[|m.items|] == C.CallItem(slot.call) && slot.call < |n.calls|
    ensures SameBlocks(e, n, q)
  {
  }

  lemma BlocksStopped(d: Decoder, e: Decoder, m: C.Message, n: C.Message, r: Reading, q: Reading, index: int)
    requires SameBlocks(d, m, r) && C.WellFormed(n)
    requires forall i :: i in e.thinking <==> i in d.thinking && i != index
    requires forall i :: i in e.thinkingStarted <==> i in d.thinkingStarted && i != index
    requires q.open == r.open - {index} && q.seen == r.seen
    requires n.items == m.items && n.blocks == m.blocks && n.calls == m.calls
    requires forall i :: i in n.open <==> i in m.open && i != index
    ensures SameBlocks(e, n, q)
  {
  }

  /** A block that stops is open in the message too, unless it never showed. */
  lemma StopsAlike(d: Decoder, m: C.Message, r: Reading, index: int)
    requires Hears(d, m, r) && ReadFrame(r, BlockStop(index)).Some?
    ensures m.Live() && C.WellFormed(m) && (index in d.thinkingStarted ==> index in d.thinking)
    ensures index in m.open <==> index !in d.thinking || index in d.thinkingStarted
    ensures index in m.open ==>
              && index in m.blocks && m.blocks[index] < |m.items|
              && (HasCall(r, index) ==> m.items[m.blocks[index]] == C.CallItem(r.open[index].call))
              && (!HasCall(r, index) ==> !m.items[m.blocks[index]].CallItem?)
    ensures index !in m.open ==> !HasCall(r, index)
  {
  }

  lemma OpenTextHears(d: Decoder, m: C.Message, r: Reading, index: int, text: string) returns (n: C.Message)
    requires Hears(d, m, r) && Live(r) && index !in r.seen
    ensures C.Run(Emit(d, ContentStart(index, TextBlock(text))).emitted) == Some(n)
    ensures SameBlocks(Emit(d, ContentStart(index, TextBlock(text))), n, Open(r, index, TextSlot))
    ensures C.WellFormed(n) && SameThoughts(n, Open(r, index, TextSlot))
    ensures n.text == m.text + text && n == m.(items := n.items, blocks := n.blocks, open := n.open, text := n.text)
  {
    hide C.Run, SameThoughts, SameBlocks, C.WellFormed;
    WellFormedOf(d, m, r);
    NotThought(d, m, r, index);
    n := Sent(d, m, ContentStart(index, TextBlock(text)));
    OthersKept(m, n, index);
    Indexed(m, n);
    BlocksOpened(d, Emit(d, ContentStart(index, TextBlock(text))), m, n, r, Open(r, index, TextSlot), index, TextSlot);
    ThoughtsStay(m, n, r, Open(r, index, TextSlot));
  }

  lemma TextStartHears(d: Decoder, m: C.Message, r: Reading, index: int, text: string) returns (n: C.Message)
    requires Hears(d, m, r) && Live(r) && index !in r.seen
    ensures Hears(StartBlock(d, index, TextStart(text)).state, n, ReadStart(r, index, TextStart(text)).value)
  {
    hide C.Run, C.WellFormed, C.Apply, SameBlocks, SameThoughts;
    n := OpenTextHears(d, m, r, index, text);
    var o := Open(r, index, TextSlot);
    if text == "" {
      assert r.text + text == r.text && r.echoed + text + text == r.echoed && m.text + text == m.text;
      TextTold(Emit(d, ContentStart(index, TextBlock(text))), n, o, r.text + text, r.echoed + text + text, r.doubled + |text|);
    } else {
      n := RepeatText(Emit(d, ContentStart(index, TextBlock(text))), n, o, index, text);
      TextTold(StartBlock(d, index, TextStart(text)).state, n, o, r.text + text, r.echoed + text + text, r.doubled + |text|);
    }
  }

  /** The text alone does not concern the blocks. */
  lemma TextTold(d: Decoder, m: C.Message, r: Reading, text: string, echoed: string, doubled: nat)
    ensures SameBlocks(d, m, r) <==> SameBlocks(d, m, r.(text := text, echoed := echoed, doubled := doubled))
    ensures C.WellFormed(m) ==>
              (SameThoughts(m, r) <==> SameThoughts(m, r.(text := text, echoed := echoed, doubled := doubled)))
  {
  }

  lemma RepeatText(d: Decoder, m: C.Message, r: Reading, index: int, text: string) returns (n: C.Message)
    requires C.Run(d.emitted) == Some(m) && SameBlocks(d, m, r) && SameThoughts(m, r)
    requires m.Live() && HasSlot(r, index, TextSlot)
    ensures C.Run(Emit(d, TextDelta(index, text)).emitted) == Some(n)
    ensures SameBlocks(Emit(d, TextDelta(index, text)), n, r) && C.WellFormed(n) && SameThoughts(n, r)
    ensures n == m.(items := n.items, text := m.text + text)
  {
    hide C.Run;
    n := Sent(d, m, TextDelta(index, text));
  }

  lemma ToolStartHears(d: Decoder, m: C.Message, r: Reading, index: int, block: WireBlock) returns (n: C.Message)
    requires Hears(d, m, r) && block.ToolUseStart? && ReadStart(r, index, block).Some?
    ensures Hears(StartBlock(d, index, block).state, n, ReadStart(r, index, block).value)
  {
    hide C.Run, SameThoughts, SameBlocks, C.WellFormed;
    WellFormedOf(d, m, r);
    NotThought(d, m, r, index);
    n := Sent(d, m, ToolCallStart(index, ToolCallBlock(block.id, block.name, "{}")));
    OthersKept(m, n, index);
    Indexed(m, n);
    BlocksOpened(d, StartBlock(d, index, block).state, m, n, r, ReadStart(r, index, block).value, index, CallSlot(|r.calls|));
    ThoughtsStay(m, n, r, ReadStart(r, index, block).value);
  }

  /** A thinking block stays invisible until there is something to show. */
  lemma HiddenThinkingHears(d: Decoder, m: C.Message, r: Reading, index: int)
    requires Hears(d, m, r) && Live(r) && index !in r.seen
    ensures Hears(d.(thinking := d.thinking + {index}), m, Think(Open(r, index, ThinkingSlot), index, ""))
  {
    hide C.Run, C.WellFormed;
    assert index !in m.blocks && index !in r.thoughts;
  }

  lemma ThinkTwice(r: Reading, index: int, thinking: string)
    ensures Think(Think(r, index, ""), index, thinking) == Think(r, index, thinking)
    ensures index in r.thoughts ==> Think(r, index, "") == r
  {
    var before := if index in r.thoughts then r.thoughts[index] else "";
    assert before + "" == before;
    assert Think(Think(r, index, ""), index, thinking).thoughts == Think(r, index, thinking).thoughts;
  }

  lemma ShowThinkingHears(d: Decoder, m: C.Message, r: Reading, index: int) returns (n: C.Message)
    requires Hears(d, m, r) && Live(r) && HasSlot(r, index, ThinkingSlot) && index !in d.thinkingStarted
    ensures Hears(Emit(d.(thinkingStarted := d.thinkingStarted + {index}),
                       ContentStart(index, ReasoningBlock("", "", ""))), n, r)
  {
    hide C.Run;
    n := Sent(d, m, ContentStart(index, ReasoningBlock("", "", "")));
    OthersKept(m, n, index);
  }

  lemma ThoughtHears(d: Decoder, m: C.Message, r: Reading, index: int, thinking: string) returns (n: C.Message)
    requires Hears(d, m, r) && Live(r) && index in d.thinkingStarted
    ensures Hears(Emit(d, ReasoningDelta(index, thinking)), n, Think(r, index, thinking))
  {
    hide C.Run;
    assert HasSlot(r, index, ThinkingSlot);
    n := Sent(d, m, ReasoningDelta(index, thinking));
  }

  lemma StartHears(d: Decoder, m: C.Message, r: Reading, index: int, block: WireBlock) returns (n: C.Message)
    requires Hears(d, m, r) && ReadStart(r, index, block).Some?
    ensures StartBlock(d, index, block).ok && Hears(StartBlock(d, index, block).state, n, ReadStart(r, index, block).value)
  {
    hide Hears;
    n := m;
    match block
    case TextStart(text) => n := TextStartHears(d, m, r, index, text);
    case ToolUseStart(_, _, _) => n := ToolStartHears(d, m, r, index, block);
    case ThinkingStart(thinking) =>
      HiddenThinkingHears(d, m, r, index);
      if thinking != "" {
        var t := d.(thinking := d.thinking + {index});
        var o := Think(Open(r, index, ThinkingSlot), index, "");
        NotYetStarted(d, m, r, index);
        n := ShowThinkingHears(t, m, o, index);
        var u := Emit(t.(thinkingStarted := t.thinkingStarted + {index}), ContentStart(index, ReasoningBlock("", "", "")));
        n := ThoughtHears(u, n, o, index, thinking);
        ThinkTwice(Open(r, index, ThinkingSlot), index, thinking);
      }
    case RedactedStart => HiddenThinkingHears(d, m, r, index);
    case UnknownStart =>
  }

  lemma NotYetStarted(d: Decoder, m: C.Message, r: Reading, index: int)
    requires Hears(d, m, r) && index !in r.seen
    ensures index !in d.thinkingStarted && index !in d.thinking
  {
  }

  lemma TextPieceHears(d: Decoder, m: C.Message, r: Reading, index: int, text: string) returns (n: C.Message)
    requires Hears(d, m, r) && Live(r) && HasSlot(r, index, TextSlot)
    ensures Hears(Emit(d, TextDelta(index, text)), n, r.(text := r.text + text, echoed := r.echoed + text))
  {
    hide C.Run, SameBlocks, SameThoughts, C.Apply;
    IsLive(d, m, r);
    n := RepeatText(d, m, r, index, text);
    TextTold(Emit(d, TextDelta(index, text)), n, r, r.text + text, r.echoed + text, r.doubled);
  }

  lemma IsLive(d: Decoder, m: C.Message, r: Reading)
    requires Hears(d, m, r)
    ensures m.Live() <==> Live(r)
  {
  }

  lemma InputPieceHears(d: Decoder, m: C.Message, r: Reading, index: int, partial: string) returns (n: C.Message)
    requires Hears(d, m, r) && Live(r) && HasCall(r, index)
    ensures Hears(Emit(d, ToolCallDelta(index, Some(ToolDelta("", "", partial)))), n,
                  ReadPiece(r, index, InputPiece(partial)).value)
  {
    hide C.Run;
    n := Sent(d, m, ToolCallDelta(index, Some(ToolDelta("", "", partial))));
  }

  lemma PieceHears(d: Decoder, m: C.Message, r: Reading, index: int, delta: WireDelta) returns (n: C.Message)
    requires Hears(d, m, r) && ReadPiece(r, index, delta).Some?
    ensures Piece(d, index, delta).ok && Hears(Piece(d, index, delta).state, n, ReadPiece(r, index, delta).value)
  {
    hide Hears;
    n := m;
    match delta
    case TextPiece(text) => n := TextPieceHears(d, m, r, index, text);
    case InputPiece(partial) => n := InputPieceHears(d, m, r, index, partial);
    case ThinkingPiece(thinking) =>
      ThinkingKnown(d, m, r, index);
      ThinkTwice(r, index, "");
      var t := d;
      if index !in d.thinkingStarted {
        n := ShowThinkingHears(d, m, r, index);
        t := Emit(d.(thinkingStarted := d.thinkingStarted + {index}), ContentStart(index, ReasoningBlock("", "", "")));
      }
      if thinking != "" {
        n := ThoughtHears(t, n, r, index, thinking);
      }
    case SignaturePiece => ThinkingKnown(d, m, r, index);
    case UnknownPiece =>
  }

  lemma ThinkingKnown(d: Decoder, m: C.Message, r: Reading, index: int)
    requires Hears(d, m, r) && HasSlot(r, index, ThinkingSlot)
    ensures index in d.thinking && index in r.thoughts
  {
  }

  lemma StopHears(d: Decoder, m: C.Message, r: Reading, index: int) returns (n: C.Message)
    requires Hears(d, m, r) && ReadFrame(r, BlockStop(index)).Some?
    ensures Hears(StopBlock(d, index), n, ReadFrame(r, BlockStop(index)).value)
  {
    hide C.Run, SameThoughts, SameBlocks, C.WellFormed;
    StopsAlike(d, m, r, index);
    n := m;
    if index in m.open {
      n := Sent(d, m, ContentStop(index));
    }
    Indexed(m, n);
    ThoughtsStay(m, n, r, ReadFrame(r, BlockStop(index)).value);
    BlocksStopped(d, StopBlock(d, index), m, n, r, ReadFrame(r, BlockStop(index)).value, index);
  }

  lemma NothingOpen(d: Decoder, m: C.Message, r: Reading)
    requires Hears(d, m, r) && r.open == map[]
    ensures m.open == {}
  {
    hide C.Run, C.WellFormed;
    if m.open != {} {
      var i := Sorting.Pick(m.open);
      assert false;
    }
  }

  lemma MessageStartHears(d: Decoder, m: C.Message, r: Reading, frame: Frame) returns (n: C.Message)
    requires Hears(d, m, r) && ReadFrame(r, frame).Some? && frame.MessageStart?
    ensures DecodeFrame(d, frame).ok && Hears(DecodeFrame(d, frame).state, n, ReadFrame(r, frame).value)
  {
    hide C.Run, SameThoughts, SameBlocks;
    WellFormedOf(d, m, r);
    var e := ResponseStart(frame.id, frame.model);
    var b := Sent(d, m, e);
    n := Sent(Emit(d, e), b, UsageReport(Some(Merge(d.usage, frame.usage))));
    ThoughtsStay(m, n, r, ReadFrame(r, frame).value);
    BlocksStay(d, DecodeFrame(d, frame).state, m, n, r, ReadFrame(r, frame).value);
  }

  lemma BlocksStay(d: Decoder, e: Decoder, m: C.Message, n: C.Message, r: Reading, q: Reading)
    requires SameBlocks(d, m, r) && C.WellFormed(n)
    requires e.thinking == d.thinking && e.thinkingStarted == d.thinkingStarted
    requires n.items == m.items && n.blocks == m.blocks && n.open == m.open && n.calls == m.calls
    requires q.open == r.open && q.seen == r.seen
    ensures SameBlocks(e, n, q)
  {
  }

  lemma WellFormedOf(d: Decoder, m: C.Message, r: Reading)
    requires Hears(d, m, r)
    ensures C.WellFormed(m)
  {
  }

  lemma MessageDeltaHears(d: Decoder, m: C.Message, r: Reading, frame: Frame) returns (n: C.Message)
    requires Hears(d, m, r) && ReadFrame(r, frame).Some? && frame.MessageDelta?
    ensures DecodeFrame(d, frame).ok && Hears(DecodeFrame(d, frame).state, n, ReadFrame(r, frame).value)
  {
    hide C.Run, DecodeStop, SameThoughts, SameBlocks;
    WellFormedOf(d, m, r);
    n := Sent(d, m, UsageReport(Some(Merge(d.usage, frame.usage))));
    ThoughtsStay(m, n, r, ReadFrame(r, frame).value);
    BlocksStay(d, DecodeFrame(d, frame).state, m, n, r, ReadFrame(r, frame).value);
  }

  lemma MessageStopHears(d: Decoder, m: C.Message, r: Reading) returns (n: C.Message)
    requires Hears(d, m, r) && ReadFrame(r, MessageStop).Some?
    ensures DecodeFrame(d, MessageStop).ok && Hears(DecodeFrame(d, MessageStop).state, n, ReadFrame(r, MessageStop).value)
  {
    hide C.Run;
    NothingOpen(d, m, r);
    n := Sent(d, m, ResponseStop(d.pending.value, d.sequence));
  }

  lemma FrameHears(d: Decoder, m: C.Message, r: Reading, frame: Frame) returns (n: C.Message)
    requires Hears(d, m, r) && ReadFrame(r, frame).Some?
    ensures DecodeFrame(d, frame).ok && Hears(DecodeFrame(d, frame).state, n, ReadFrame(r, frame).value)
  {
    hide Hears, StartBlock, ReadStart, Piece, ReadPiece, StopBlock;
    n := m;
    match frame
    case BlockStart(index, block) => n := StartHears(d, m, r, index, block);
    case BlockDelta(index, delta) => n := PieceHears(d, m, r, index, delta);
    case BlockStop(index) => n := StopHears(d, m, r, index);
    case MessageStart(_, _, _) => n := MessageStartHears(d, m, r, frame);
    case MessageDelta(_, _, _) => n := MessageDeltaHears(d, m, r, frame);
    case MessageStop => n := MessageStopHears(d, m, r);
    case _ =>
  }

  /** For every stream that can be read, interleaved blocks and hidden thinking included: the decoder
      accepts it and its events mean what was read, but that text in a block start counts twice. */
  lemma {:induction false} DecoderHears(frames: seq<Frame>) returns (m: C.Message)
    requires Read(frames).Some?
    ensures DecodeFrames(frames).ok && Hears(DecodeFrames(frames).state, m, Read(frames).value)
  {
    hide Hears, DecodeFrame, ReadFrame;
    if frames == [] {
      m := HearsNothing();
    } else {
      var before, last := frames[..|frames| - 1], frames[|frames| - 1];
      m := DecoderHears(before);
      m := FrameHears(DecodeFrames(before).state, m, Read(before).value, last);
    }
  }

  /** So it accepts the whole stream exactly when that has stopped, once it began. */
  lemma AcceptedExactly(frames: seq<Frame>)
    requires Read(frames).Some?
    ensures Accepts(frames) <==> (Read(frames).value.started ==> Read(frames).value.stop.Some?)
  {
    hide C.Run;
    var m := DecoderHears(frames);
  }

  lemma HearsNothing() returns (m: C.Message)
    ensures Hears(INITIAL, m, UNREAD)
  {
    m := C.EMPTY;
  }

  // ---------------------------------------------------------------- what cannot be read

  /** No thinking block, and no tool block that starts with its input. */
  predicate Visible(frame: Frame) {
    frame.BlockStart? ==>
      && !frame.block.ThinkingStart? && !frame.block.RedactedStart?
      && (frame.block.ToolUseStart? ==> frame.block.input in {"", "null", "{}"})
  }

  lemma Rejected(events: seq<Event>, e: Event, more: seq<Event>)
    requires C.Run(events).Some? ==> C.Apply(C.Run(events).value, e).None?
    ensures C.Run(events + [e] + more).None?
  {
    hide C.Apply;
    C.RunSnoc(events, e);
    if C.Run(events + [e] + more).Some? {
      C.RunPrefix(events + [e], more);
    }
  }

  lemma StartRejected(d: Decoder, m: C.Message, r: Reading, index: int, block: WireBlock)
    requires Hears(d, m, r) && Visible(BlockStart(index, block)) && r.thoughts == map[]
    requires ReadStart(r, index, block).None? && StartBlock(d, index, block).ok
    ensures C.Run(StartBlock(d, index, block).state.emitted).None?
  {
    hide C.Run;
    assert !m.Fresh(index);
    var w := StartBlock(d, index, block).state.emitted;
    var e := w[|d.emitted|];
    assert C.Apply(m, e).None?;
    assert w == d.emitted + [e] + w[|d.emitted| + 1..];
    Rejected(d.emitted, e, w[|d.emitted| + 1..]);
  }

  lemma NothingThought(d: Decoder, m: C.Message, r: Reading)
    requires Hears(d, m, r) && r.thoughts == map[]
    ensures m.Live() <==> Live(r)
    ensures forall i :: i !in d.thinking && (i in m.open <==> i in r.open)
    ensures forall i :: i in m.open ==>
              match r.open[i]
              case TextSlot => i in m.blocks && m.blocks[i] < |m.items| && m.items[m.blocks[i]].TextItem?
              case CallSlot(k) =>
                i in m.blocks && m.blocks[i] < |m.items| && m.items[m.blocks[i]] == C.CallItem(k) && k < |r.calls|
              case ThinkingSlot => false
  {
    hide C.Run;
    forall i ensures i !in d.thinking && !HasSlot(r, i, ThinkingSlot) {
      assert HasSlot(r, i, ThinkingSlot) ==> i in r.thoughts;
    }
  }

  lemma PieceRejected(d: Decoder, m: C.Message, r: Reading, index: int, delta: WireDelta)
    requires Hears(d, m, r) && r.thoughts == map[] && ReadPiece(r, index, delta).None? && Piece(d, index, delta).ok
    ensures C.Run(Piece(d, index, delta).state.emitted).None?
  {
    hide C.Run, SameBlocks, SameThoughts;
    NothingThought(d, m, r);
    var w := Piece(d, index, delta).state.emitted;
    var e := w[|d.emitted|];
    assert C.Apply(m, e).None?;
    assert w == d.emitted + [e] + [];
    Rejected(d.emitted, e, []);
  }

  lemma BoundaryRejected(d: Decoder, m: C.Message, r: Reading, frame: Frame)
    requires Hears(d, m, r) && r.thoughts == map[] && !frame.BlockStart? && !frame.BlockDelta?
    requires ReadFrame(r, frame).None? && DecodeFrame(d, frame).ok
    ensures C.Run(DecodeFrame(d, frame).state.emitted).None?
  {
    hide C.Run, SameBlocks, SameThoughts;
    NothingThought(d, m, r);
    var w := DecodeFrame(d, frame).state.emitted;
    var e := w[|d.emitted|];
    if frame.MessageStop? && Live(r) && r.open != map[] {
      assert r.open.Keys != {};
      var i := Sorting.Pick(r.open.Keys);
      assert i in m.open;
    }
    assert C.Apply(m, e).None?;
    assert w == d.emitted + [e] + w[|d.emitted| + 1..];
    Rejected(d.emitted, e, w[|d.emitted| + 1..]);
  }

  lemma FrameGrows(d: Decoder, frame: Frame)
    ensures d.emitted <= DecodeFrame(d, frame).state.emitted
  {
  }

  lemma VisibleThinksNothing(r: Reading, frame: Frame)
    requires Visible(frame) && r.thoughts == map[] && ReadFrame(r, frame).Some?
    requires forall i :: !HasSlot(r, i, ThinkingSlot)
    ensures ReadFrame(r, frame).value.thoughts == map[]
    ensures forall i :: !HasSlot(ReadFrame(r, frame).value, i, ThinkingSlot)
  {
    forall i ensures !HasSlot(ReadFrame(r, frame).value, i, ThinkingSlot) {
      assert !HasSlot(r, i, ThinkingSlot);
    }
  }

  lemma {:induction false} NoThoughts(frames: seq<Frame>)
    requires (forall k :: 0 <= k < |frames| ==> Visible(frames[k])) && Read(frames).Some?
    ensures Read(frames).value.thoughts == map[] && forall i :: !HasSlot(Read(frames).value, i, ThinkingSlot)
  {
    hide ReadFrame, Visible;
    if frames != [] {
      NoThoughts(frames[..|frames| - 1]);
      VisibleThinksNothing(Read(frames[..|frames| - 1]).value, frames[|frames| - 1]);
    }
  }

  /** Without thinking: a stream can be read if and only if the decoder accepts it and its events are well
      bracketed. */
  lemma {:induction false} ReadableExactly(frames: seq<Frame>)
    requires forall k :: 0 <= k < |frames| ==> Visible(frames[k])
    ensures Read(frames).Some? <==> DecodeFrames(frames).ok && C.Run(DecodeFrames(frames).state.emitted).Some?
  {
    hide ReadFrame, DecodeFrame, Visible, C.Run, Hears;
    if frames == [] {
      var m := HearsNothing();
      RunsAs(INITIAL, m, UNREAD);
    } else {
      var before, last := frames[..|frames| - 1], frames[|frames| - 1];
      ReadableExactly(before);
      var d := DecodeFrames(before).state;
      FrameGrows(d, last);
      if Read(before).Some? {
        var m := DecoderHears(before);
        NoThoughts(before);
        if Read(frames).Some? {
          m := DecoderHears(frames);
          RunsAs(DecodeFrames(frames).state, m, Read(frames).value);
        } else if DecodeFrame(d, last).ok {
          FrameRejected(d, m, Read(before).value, last);
        }
      } else if DecodeFrames(frames).ok && C.Run(DecodeFrames(frames).state.emitted).Some? {
        var w := DecodeFrames(frames).state.emitted;
        assert w == d.emitted + w[|d.emitted|..];
        C.RunPrefix(d.emitted, w[|d.emitted|..]);
      }
    }
  }

  lemma RunsAs(d: Decoder, m: C.Message, r: Reading)
    requires Hears(d, m, r)
    ensures C.Run(d.emitted) == Some(m)
  {
  }

  lemma FrameRejected(d: Decoder, m: C.Message, r: Reading, frame: Frame)
    requires Hears(d, m, r) && Visible(frame) && r.thoughts == map[]
    requires ReadFrame(r, frame).None? && DecodeFrame(d, frame).ok
    ensures C.Run(DecodeFrame(d, frame).state.emitted).None?
  {
    hide C.Run, Hears, StartBlock, Piece, ReadStart, ReadPiece;
    match frame
    case BlockStart(index, block) => StartRejected(d, m, r, index, block);
    case BlockDelta(index, delta) => PieceRejected(d, m, r, index, delta);
    case _ => BoundaryRejected(d, m, r, frame);
  }

  /** The decoded text is the text read exactly when no block start carried any. */
  lemma TextExactness(frames: seq<Frame>)
    requires Read(frames).Some?
    ensures C.Run(DecodeFrames(frames).state.emitted).Some?
    ensures C.Run(DecodeFrames(frames).state.emitted).value.text == Read(frames).value.text <==>
            Read(frames).value.doubled == 0
  {
    var m := DecoderHears(frames);
  }

  // ---------------------------------------------------------------- which events are emitted

  /** What the decoder emits while no block start carries text. */
  predicate Emittable(e: Event) {
    && (e.ContentStart? ==> e.block == TextBlock("") || e.block == ReasoningBlock("", "", ""))
    && (e.ResponseStop? ==> e.reason != Unknown)
    && !e.Failure?
  }

  ghost predicate AllEmittable(events: seq<Event>) {
    forall k :: 0 <= k < |events| ==> Emittable(events[k])
  }

  lemma StartEmits(d: Decoder, r: Reading, index: int, block: WireBlock)
    requires AllEmittable(d.emitted) && ReadStart(r, index, block).Some?
    requires ReadStart(r, index, block).value.doubled == r.doubled
    ensures AllEmittable(StartBlock(d, index, block).state.emitted)
  {
  }

  lemma PieceEmits(d: Decoder, index: int, delta: WireDelta)
    requires AllEmittable(d.emitted)
    ensures AllEmittable(Piece(d, index, delta).state.emitted)
  {
  }

  lemma FrameEmits(d: Decoder, r: Reading, frame: Frame)
    requires AllEmittable(d.emitted) && ReadFrame(r, frame).Some? && ReadFrame(r, frame).value.doubled == r.doubled
    ensures AllEmittable(DecodeFrame(d, frame).state.emitted)
  {
    hide StartBlock, ReadStart, Piece, ReadPiece, DecodeStop, Merge;
    match frame
    case BlockStart(index, block) => StartEmits(d, r, index, block);
    case BlockDelta(index, delta) => PieceEmits(d, index, delta);
    case _ =>
  }

  lemma DoubledGrows(r: Reading, frame: Frame)
    requires ReadFrame(r, frame).Some?
    ensures r.doubled <= ReadFrame(r, frame).value.doubled
  {
  }

  lemma {:induction false} DecoderEmits(frames: seq<Frame>)
    requires Read(frames).Some? && Read(frames).value.doubled == 0
    ensures AllEmittable(DecodeFrames(frames).state.emitted)
  {
    hide ReadFrame, DecodeFrame;
    if frames != [] {
      var before, last := frames[..|frames| - 1], frames[|frames| - 1];
      DoubledGrows(Read(before).value, last);
      DecoderEmits(before);
      var m := DecoderHears(before);
      FrameEmits(DecodeFrames(before).state, Read(before).value, last);
    }
  }
}
