/** The Responses encoder accepts every portable well-bracketed stream and renders its meaning. */
module ResponsesMeaning {
  import opened Llm
  import C = Canonical
  import opened ResponsesEncoder
  import Gates
  import Decimal

  /** The block an item of the message would be written by, were it open. */
  function BlockAt(m: C.Message, k: nat): StreamBlock
    requires k < |m.items|
    requires m.items[k].CallItem? ==> m.items[k].call < |m.calls|
  {
    match m.items[k]
    case TextItem(text) => StreamBlock(TextKind, k, ItemID(TextKind, k), "", "", text)
    case ReasoningItem(thinking) => StreamBlock(ReasoningKind, k, ItemID(ReasoningKind, k), "", "", thinking)
    case CallItem(n) => StreamBlock(ToolKind, k, ItemID(ToolKind, k), m.calls[n].id, m.calls[n].name, m.calls[n].arguments)
  }

  /** How item `k` of a finished message appears in the output. */
  function Rendered(c: Config, m: C.Message, k: nat): OutputItem
    requires k < |m.items|
    requires m.items[k].CallItem? ==> m.items[k].call < |m.calls|
  {
    match m.items[k]
    case TextItem(text) =>
      MessageOut("msg_gateway_" + Decimal.Print(k), Completed, [if c.refusal then RefusalPart(text) else OutputText(text)])
    case ReasoningItem(thinking) => ReasoningOut("rs_gateway_" + Decimal.Print(k), Completed, [thinking])
    case CallItem(n) =>
      var call := m.calls[n];
      CallOut("fc_gateway_" + Decimal.Print(k), Completed, call.id, call.name, if call.arguments == "" then "{}" else call.arguments)
  }

  lemma RenderedIsFinished(c: Config, m: C.Message, k: nat)
    requires k < |m.items|
    requires m.items[k].CallItem? ==> m.items[k].call < |m.calls|
    ensures Rendered(c, m, k) == Finished(c, BlockAt(m, k))
  {
  }

  ghost predicate IsOpen(m: C.Message, k: nat) {
    exists i :: i in m.open && i in m.blocks && m.blocks[i] == k
  }

  ghost predicate SameBlocks(s: State, m: C.Message) {
    && C.WellFormed(m)
    && (forall i :: i in s.blocks <==> i in m.open)
    && (forall i :: i in m.open ==> s.blocks[i] == BlockAt(m, m.blocks[i]))
  }

  ghost predicate SameOutput(c: Config, s: State, m: C.Message) {
    && C.WellFormed(m)
    && |s.output| == |m.items|
    && forall k: nat :: k < |m.items| ==>
         s.output[k] == if IsOpen(m, k) then Announced(BlockAt(m, k)) else Rendered(c, m, k)
  }

  ghost predicate SameHead(c: Config, s: State, m: C.Message) {
    && s.started == m.started && s.stopped == m.stop.Some?
    && (m.started ==> s.id == NormalizeID(m.id) && s.model == m.model)
    && s.usage == m.usage
    && s.allText == if c.refusal then "" else m.text
  }

  ghost predicate Mirrors(c: Config, s: State, m: C.Message) {
    SameHead(c, s, m) && SameBlocks(s, m) && SameOutput(c, s, m)
  }

  /** Opening a fresh index with a given block. */
  lemma OpenMirrors(c: Config, s: State, m: C.Message, index: int, t: State, n: C.Message, b: StreamBlock)
    requires Mirrors(c, s, m) && m.Fresh(index) && C.WellFormed(n)
    requires |n.items| == |m.items| + 1 && n.items[..|m.items|] == m.items
    requires m.calls <= n.calls
    requires n.blocks == m.blocks[index := |m.items|] && n.open == m.open + {index}
    requires b == BlockAt(n, |m.items|)
    requires t.blocks == s.blocks[index := b] && t.output == s.output + [Announced(b)]
    ensures SameBlocks(t, n) && SameOutput(c, t, n)
  {
    forall k: nat | k < |m.items| ensures IsOpen(n, k) == IsOpen(m, k) && BlockAt(n, k) == BlockAt(m, k) {
      assert n.items[k] == n.items[..|m.items|][k];
      if IsOpen(m, k) {
        var i :| i in m.open && i in m.blocks && m.blocks[i] == k;
        assert i in n.open && n.blocks[i] == k;
      }
      if IsOpen(n, k) {
        var i :| i in n.open && i in n.blocks && n.blocks[i] == k;
        assert i in m.open && m.blocks[i] == k;
      }
    }
    assert index in n.open && n.blocks[index] == |m.items|;
    assert IsOpen(n, |m.items|);
  }

  /** Appending to the buffer of an open block. */
  lemma GrowMirrors(c: Config, s: State, m: C.Message, index: int, delta: string, t: State, n: C.Message)
    requires Mirrors(c, s, m) && index in m.open && C.WellFormed(n)
    requires |n.items| == |m.items| && n.blocks == m.blocks && n.open == m.open
    requires BlockAt(n, m.blocks[index]) ==
             BlockAt(m, m.blocks[index]).(buffer := BlockAt(m, m.blocks[index]).buffer + delta)
    requires forall k: nat :: k < |m.items| && k != m.blocks[index] ==> BlockAt(n, k) == BlockAt(m, k)
    requires t.blocks == Grow(s, index, delta).blocks && t.output == s.output
    ensures SameBlocks(t, n) && SameOutput(c, t, n)
  {
    forall k: nat | k < |m.items| ensures k != m.blocks[index] ==> Rendered(c, n, k) == Rendered(c, m, k) {
      RenderedIsFinished(c, m, k);
      RenderedIsFinished(c, n, k);
    }
  }

  lemma CloseMirrors(c: Config, s: State, m: C.Message, index: int, t: State, n: C.Message)
    requires Mirrors(c, s, m) && index in m.open && C.WellFormed(n)
    requires n.items == m.items && n.calls == m.calls && n.blocks == m.blocks && n.open == m.open - {index}
    requires var b := s.blocks[index];
             t.blocks == s.blocks - {index} && t.output == s.output[b.outputIndex := Finished(c, b)]
    ensures SameBlocks(t, n) && SameOutput(c, t, n)
  {
    forall k: nat | k < |m.items| ensures IsOpen(n, k) == (IsOpen(m, k) && k != m.blocks[index]) {
      if IsOpen(m, k) && k != m.blocks[index] {
        var i :| i in m.open && i in m.blocks && m.blocks[i] == k;
        assert i in n.open && n.blocks[i] == k;
      }
      if IsOpen(n, k) {
        var i :| i in n.open && i in n.blocks && n.blocks[i] == k;
        assert i in m.open;
      }
    }
  }

  lemma TextMirrors(c: Config, s: State, m: C.Message, index: int, text: string)
    requires Mirrors(c, s, m) && m.OpenText(index)
    ensures HasOpen(s, index, TextKind)
    ensures Mirrors(c, AddText(c, s, index, text), C.Apply(m, TextDelta(index, text)).value)
  {
    hide C.WellFormed;
    var n := C.Apply(m, TextDelta(index, text)).value;
    C.ApplyWellFormed(m, TextDelta(index, text));
    assert s.blocks[index] == BlockAt(m, m.blocks[index]);
    GrowMirrors(c, s, m, index, text, AddText(c, s, index, text), n);
  }

  lemma ThinkingMirrors(c: Config, s: State, m: C.Message, index: int, thinking: string)
    requires Mirrors(c, s, m) && m.OpenReasoning(index)
    ensures HasOpen(s, index, ReasoningKind)
    ensures Mirrors(c, AddThinking(s, index, thinking), C.Apply(m, ReasoningDelta(index, thinking)).value)
  {
    hide C.WellFormed;
    var n := C.Apply(m, ReasoningDelta(index, thinking)).value;
    C.ApplyWellFormed(m, ReasoningDelta(index, thinking));
    var k := m.blocks[index];
    assert s.blocks[index] == BlockAt(m, k);
    if thinking == "" {
      assert m.items[k].thinking + "" == m.items[k].thinking;
      assert n == m;
    } else {
      GrowMirrors(c, s, m, index, thinking, AddThinking(s, index, thinking), n);
    }
  }

  lemma ArgumentsMirror(c: Config, s: State, m: C.Message, index: int, delta: ToolDelta)
    requires Mirrors(c, s, m) && m.OpenCall(index)
    ensures ToolDeltaStep(s, index, Some(delta)).ok
    ensures Mirrors(c, ToolDeltaStep(s, index, Some(delta)).state, C.Apply(m, ToolCallDelta(index, Some(delta))).value)
  {
    hide C.WellFormed;
    var e := ToolCallDelta(index, Some(delta));
    var n := C.Apply(m, e).value;
    C.ApplyWellFormed(m, e);
    var k := m.blocks[index];
    assert s.blocks[index] == BlockAt(m, k);
    if delta.arguments == "" {
      var call := m.items[k].call;
      assert m.calls[call].arguments + "" == m.calls[call].arguments;
      assert n == m;
    } else {
      forall j: nat | j < |m.items| && j != k ensures BlockAt(n, j) == BlockAt(m, j) {
        if m.items[j].CallItem? {
          assert m.items[j].call != m.items[k].call;
        }
      }
      GrowMirrors(c, s, m, index, delta.arguments, ToolDeltaStep(s, index, Some(delta)).state, n);
    }
  }

  lemma OpenTextMirrors(c: Config, s: State, m: C.Message, index: int, part: ContentPart)
    requires Mirrors(c, s, m) && m.Fresh(index)
    ensures var k := |s.output|;
            var b := StreamBlock(TextKind, k, ItemID(TextKind, k), "", "", "");
            Mirrors(c, Write(OpenBlock(s, index, b), PartAdded(b.itemID, k, part)),
                    C.Apply(m, ContentStart(index, TextBlock(""))).value)
  {
    var k := |s.output|;
    var b := StreamBlock(TextKind, k, ItemID(TextKind, k), "", "", "");
    C.ApplyWellFormed(m, ContentStart(index, TextBlock("")));
    assert m.text + "" == m.text;
    OpenMirrors(c, s, m, index, Write(OpenBlock(s, index, b), PartAdded(b.itemID, k, part)),
                C.Apply(m, ContentStart(index, TextBlock(""))).value, b);
  }

  /** A block that opens with text means the same as one that opens empty and then receives it. */
  lemma StartThenText(m: C.Message, index: int, text: string)
    requires m.Fresh(index)
    ensures var n := C.Apply(m, ContentStart(index, TextBlock(""))).value;
            && n.OpenText(index)
            && C.Apply(n, TextDelta(index, text)) == C.Apply(m, ContentStart(index, TextBlock(text)))
  {
    var n := C.Apply(m, ContentStart(index, TextBlock(""))).value;
    assert "" + text == text && m.text + "" == m.text;
    assert n.items[|m.items| := C.TextItem("" + text)] == m.items + [C.TextItem(text)];
  }

  lemma StartTextMirrors(c: Config, s: State, m: C.Message, index: int, text: string)
    requires Mirrors(c, s, m) && m.Fresh(index)
    ensures StartContent(c, s, index, TextBlock(text)).ok
    ensures Mirrors(c, StartContent(c, s, index, TextBlock(text)).state,
                    C.Apply(m, ContentStart(index, TextBlock(text))).value)
  {
    var k := |s.output|;
    var b := StreamBlock(TextKind, k, ItemID(TextKind, k), "", "", "");
    OpenTextMirrors(c, s, m, index, TextPart(c, text));
    if text != "" {
      StartThenText(m, index, text);
      TextMirrors(c, Write(OpenBlock(s, index, b), PartAdded(b.itemID, k, TextPart(c, text))),
                  C.Apply(m, ContentStart(index, TextBlock(""))).value, index, text);
    }
  }

  lemma OpenThinkingMirrors(c: Config, s: State, m: C.Message, index: int)
    requires Mirrors(c, s, m) && m.Fresh(index)
    ensures var k := |s.output|;
            var b := StreamBlock(ReasoningKind, k, ItemID(ReasoningKind, k), "", "", "");
            Mirrors(c, Write(OpenBlock(s, index, b), SummaryAdded(b.itemID, k)),
                    C.Apply(m, ContentStart(index, ReasoningBlock("", "", ""))).value)
  {
    var k := |s.output|;
    var b := StreamBlock(ReasoningKind, k, ItemID(ReasoningKind, k), "", "", "");
    C.ApplyWellFormed(m, ContentStart(index, ReasoningBlock("", "", "")));
    OpenMirrors(c, s, m, index, Write(OpenBlock(s, index, b), SummaryAdded(b.itemID, k)),
                C.Apply(m, ContentStart(index, ReasoningBlock("", "", ""))).value, b);
  }

  lemma StartThenThinking(m: C.Message, index: int, thinking: string)
    requires m.Fresh(index)
    ensures var n := C.Apply(m, ContentStart(index, ReasoningBlock("", "", ""))).value;
            && n.OpenReasoning(index)
            && C.Apply(n, ReasoningDelta(index, thinking)) ==
               C.Apply(m, ContentStart(index, ReasoningBlock(thinking, "", "")))
  {
    var n := C.Apply(m, ContentStart(index, ReasoningBlock("", "", ""))).value;
    assert "" + thinking == thinking;
    assert n.items[|m.items| := C.ReasoningItem("" + thinking)] == m.items + [C.ReasoningItem(thinking)];
  }

  lemma StartThinkingMirrors(c: Config, s: State, m: C.Message, index: int, thinking: string)
    requires Mirrors(c, s, m) && m.Fresh(index)
    ensures StartContent(c, s, index, ReasoningBlock(thinking, "", "")).ok
    ensures Mirrors(c, StartContent(c, s, index, ReasoningBlock(thinking, "", "")).state,
                    C.Apply(m, ContentStart(index, ReasoningBlock(thinking, "", ""))).value)
  {
    var k := |s.output|;
    var b := StreamBlock(ReasoningKind, k, ItemID(ReasoningKind, k), "", "", "");
    OpenThinkingMirrors(c, s, m, index);
    StartThenThinking(m, index, thinking);
    ThinkingMirrors(c, Write(OpenBlock(s, index, b), SummaryAdded(b.itemID, k)),
                    C.Apply(m, ContentStart(index, ReasoningBlock("", "", ""))).value, index, thinking);
  }

  lemma StopMirrors(c: Config, s: State, m: C.Message, index: int)
    requires Mirrors(c, s, m) && C.Apply(m, ContentStop(index)).Some?
    ensures StopContent(c, s, index).ok
    ensures Mirrors(c, StopContent(c, s, index).state, C.Apply(m, ContentStop(index)).value)
  {
    hide C.WellFormed;
    var n := C.Apply(m, ContentStop(index)).value;
    C.ApplyWellFormed(m, ContentStop(index));
    var b := s.blocks[index];
    assert b == BlockAt(m, m.blocks[index]);
    WriteAllKeeps(s.(blocks := s.blocks - {index}), ClosingEvents(c, b));
    CloseMirrors(c, s, m, index, StopContent(c, s, index).state, n);
  }

  lemma SameOpen(c: Config, s: State, m: C.Message, t: State, n: C.Message)
    requires SameBlocks(s, m) && SameOutput(c, s, m) && C.WellFormed(n)
    requires n.items == m.items && n.calls == m.calls && n.blocks == m.blocks && n.open == m.open
    requires t.blocks == s.blocks && t.output == s.output
    ensures SameBlocks(t, n) && SameOutput(c, t, n)
  {}

  lemma StartToolMirrors(c: Config, s: State, m: C.Message, index: int, block: Block)
    requires Mirrors(c, s, m) && C.Apply(m, ToolCallStart(index, block)).Some?
    ensures StartToolCall(s, index, block).ok
    ensures Mirrors(c, StartToolCall(s, index, block).state, C.Apply(m, ToolCallStart(index, block)).value)
  {
    var e := ToolCallStart(index, block);
    C.ApplyWellFormed(m, e);
    var k := |s.output|;
    var b := StreamBlock(ToolKind, k, ItemID(ToolKind, k), block.id, block.name, "");
    OpenMirrors(c, s, m, index, StartToolCall(s, index, block).state, C.Apply(m, e).value, b);
  }

  lemma HeadMirrors(c: Config, s: State, m: C.Message, e: Event)
    requires Mirrors(c, s, m) && C.Apply(m, e).Some? && Gates.IntoResponses(e, c.refusal)
    requires e.ResponseStart? || e.ResponseStop? || e.UsageReport?
    ensures Encode(c, s, e).ok && Mirrors(c, Encode(c, s, e).state, C.Apply(m, e).value)
  {
    hide StartContent, StartToolCall, ToolDeltaStep, StopContent, AddText, AddThinking, Rendered, BlockAt, NormalizeID;
    C.ApplyWellFormed(m, e);
    if e.ResponseStop? {
      assert forall i :: i !in s.blocks;
      assert s.blocks == map[];
    }
    SameOpen(c, s, m, Encode(c, s, e).state, C.Apply(m, e).value);
  }

  /** One portable event: the encoder accepts it and goes on mirroring the message. */
  lemma StepMirrors(c: Config, s: State, m: C.Message, e: Event)
    requires Mirrors(c, s, m) && C.Apply(m, e).Some? && Gates.IntoResponses(e, c.refusal)
    ensures Encode(c, s, e).ok && Mirrors(c, Encode(c, s, e).state, C.Apply(m, e).value)
  {
    hide Mirrors, StartContent, StartToolCall, ToolDeltaStep, StopContent, AddText, AddThinking;
    match e
    case ContentStart(index, block) =>
      if block.TextBlock? {
        StartTextMirrors(c, s, m, index, block.text);
      } else {
        StartThinkingMirrors(c, s, m, index, block.thinking);
      }
    case ToolCallStart(index, block) => StartToolMirrors(c, s, m, index, block);
    case TextDelta(index, text) => TextMirrors(c, s, m, index, text);
    case ReasoningDelta(index, thinking) => ThinkingMirrors(c, s, m, index, thinking);
    case ToolCallDelta(index, delta) => ArgumentsMirror(c, s, m, index, delta.value);
    case ContentStop(index) => StopMirrors(c, s, m, index);
    case _ => HeadMirrors(c, s, m, e);
  }

  /** Every portable well-bracketed stream is accepted, event by event, and mirrored. */
  lemma {:induction false} EncoderMirrors(c: Config, events: seq<Event>)
    requires C.Run(events).Some? && forall k :: 0 <= k < |events| ==> Gates.IntoResponses(events[k], c.refusal)
    ensures AcceptsAll(c, events) && Mirrors(c, EncodeAll(c, events), C.Run(events).value)
  {
    if events != [] {
      var before := events[..|events| - 1];
      EncoderMirrors(c, before);
      StepMirrors(c, EncodeAll(c, before), C.Run(before).value, events[|events| - 1]);
    }
  }

  /** The output a client is shown for a finished message. */
  function Output(c: Config, m: C.Message): seq<OutputItem>
    requires forall k :: 0 <= k < |m.items| && m.items[k].CallItem? ==> m.items[k].call < |m.calls|
  {
    seq(|m.items|, k requires 0 <= k < |m.items| => Rendered(c, m, k))
  }

  /** With nothing open, the encoder's output is the rendering of the message. */
  lemma FinishedOutput(c: Config, s: State, m: C.Message)
    requires Mirrors(c, s, m) && m.open == {}
    ensures s.output == Output(c, m)
  {}
}
