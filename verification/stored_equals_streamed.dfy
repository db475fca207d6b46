/** The stored form of a stream says what its terminal snapshot says. */
module StoredMeaning {
  import opened Llm
  import C = Canonical
  import opened ResponsesEncoder
  import opened ResponseStore
  import opened ResponsesMeaning
  import A = StreamAccumulator
  import Sorting

  // ---------------------------------------------------------------- what the accumulator holds

  ghost predicate IsText(m: C.Message, i: int) {
    i in m.blocks && m.blocks[i] < |m.items| && m.items[m.blocks[i]].TextItem?
  }

  ghost predicate IsCall(m: C.Message, i: int) {
    && i in m.blocks && m.blocks[i] < |m.items| && m.items[m.blocks[i]].CallItem?
    && m.items[m.blocks[i]].call < |m.calls|
  }

  ghost predicate HoldsText(a: A.State, m: C.Message) {
    && (forall i :: i in a.text <==> IsText(m, i))
    && (forall i :: i in a.text ==> a.text[i] == m.items[m.blocks[i]].text)
  }

  function ToolFor(call: C.Call): A.Tool {
    A.Tool(call.id, call.name, "{}", call.arguments)
  }

  ghost predicate HoldsCalls(a: A.State, m: C.Message) {
    && (forall i :: i in a.tools <==> IsCall(m, i))
    && (forall i :: i in a.tools ==> a.tools[i] == ToolFor(m.calls[m.items[m.blocks[i]].call]))
  }

  ghost predicate HasReasoning(m: C.Message) {
    exists k :: 0 <= k < |m.items| && m.items[k].ReasoningItem?
  }

  ghost predicate Holds(a: A.State, m: C.Message) {
    && C.WellFormed(m)
    && a.responseID == m.id && a.model == m.model && a.usage == m.usage && a.stop == m.stop
    && HoldsText(a, m) && HoldsCalls(a, m) && (a.nonportable <==> HasReasoning(m))
  }

  /** A call that announces no arguments, so that stored and streamed default alike. */
  predicate PlainStart(e: Event) {
    e.ToolCallStart? && e.block.ToolCallBlock? ==> e.block.arguments == "{}"
  }

  lemma BeginHolds(a: A.State, m: C.Message, index: int, item: C.Item, b: A.State, n: C.Message)
    requires Holds(a, m) && m.Fresh(index) && C.WellFormed(n)
    requires n.blocks == m.blocks[index := |m.items|] && n.items == m.items + [item] && m.calls <= n.calls
    requires b.responseID == n.id && b.model == n.model && b.usage == n.usage && b.stop == n.stop
    requires match item
             case TextItem(text) => b.text == a.text[index := text] && b.tools == a.tools && b.nonportable == a.nonportable
             case ReasoningItem(_) => b.text == a.text && b.tools == a.tools && b.nonportable
             case CallItem(c) =>
               c == |m.calls| && |n.calls| == c + 1 && b.text == a.text
               && b.tools == a.tools[index := ToolFor(n.calls[c])] && b.nonportable == a.nonportable
    ensures Holds(b, n)
  {
    forall i | i != index ensures IsText(n, i) == IsText(m, i) && IsCall(n, i) == IsCall(m, i) {
    }
    assert n.items[|m.items|] == item;
    if HasReasoning(m) {
      var k :| 0 <= k < |m.items| && m.items[k].ReasoningItem?;
      assert n.items[k].ReasoningItem?;
    }
    if HasReasoning(n) && !item.ReasoningItem? {
      var k :| 0 <= k < |n.items| && n.items[k].ReasoningItem?;
      assert m.items[k].ReasoningItem?;
    }
  }

  lemma TextHolds(a: A.State, m: C.Message, index: int, text: string)
    requires Holds(a, m) && m.OpenText(index)
    ensures A.Observe(a, TextDelta(index, text)).ok
    ensures Holds(A.Observe(a, TextDelta(index, text)).state, C.Apply(m, TextDelta(index, text)).value)
  {
    var e := TextDelta(index, text);
    var n := C.Apply(m, e).value;
    C.ApplyWellFormed(m, e);
    assert IsText(m, index);
    forall i ensures IsText(n, i) == IsText(m, i) && IsCall(n, i) == IsCall(m, i) {
    }
    SameReasoning(m, n);
  }

  lemma SameReasoning(m: C.Message, n: C.Message)
    requires |m.items| == |n.items|
    requires forall k :: 0 <= k < |m.items| ==> (m.items[k].ReasoningItem? <==> n.items[k].ReasoningItem?)
    ensures HasReasoning(m) <==> HasReasoning(n)
  {}

  lemma ThinkingHolds(a: A.State, m: C.Message, index: int, thinking: string)
    requires Holds(a, m) && m.OpenReasoning(index)
    ensures Holds(A.Observe(a, ReasoningDelta(index, thinking)).state, C.Apply(m, ReasoningDelta(index, thinking)).value)
  {
    var e := ReasoningDelta(index, thinking);
    var n := C.Apply(m, e).value;
    C.ApplyWellFormed(m, e);
    forall i ensures IsText(n, i) == IsText(m, i) && IsCall(n, i) == IsCall(m, i) {
    }
    assert m.items[m.blocks[index]].ReasoningItem?;
    SameReasoning(m, n);
  }

  lemma ArgumentsHold(a: A.State, m: C.Message, index: int, delta: ToolDelta)
    requires Holds(a, m) && m.OpenCall(index)
    ensures A.Observe(a, ToolCallDelta(index, Some(delta))).ok
    ensures Holds(A.Observe(a, ToolCallDelta(index, Some(delta))).state,
                  C.Apply(m, ToolCallDelta(index, Some(delta))).value)
  {
    var e := ToolCallDelta(index, Some(delta));
    var n := C.Apply(m, e).value;
    C.ApplyWellFormed(m, e);
    assert IsCall(m, index);
    forall i ensures IsText(n, i) == IsText(m, i) && IsCall(n, i) == IsCall(m, i) {
    }
    forall i | IsCall(m, i) && i != index
      ensures m.items[m.blocks[i]].call != m.items[m.blocks[index]].call
    {
      assert m.blocks[i] != m.blocks[index];
    }
    SameReasoning(m, n);
  }

  lemma StepHolds(a: A.State, m: C.Message, e: Event)
    requires Holds(a, m) && C.Apply(m, e).Some? && PlainStart(e)
    ensures A.Observe(a, e).ok && Holds(A.Observe(a, e).state, C.Apply(m, e).value)
  {
    hide C.WellFormed;
    var b, n := A.Observe(a, e).state, C.Apply(m, e).value;
    C.ApplyWellFormed(m, e);
    match e
    case ContentStart(index, TextBlock(text)) => BeginHolds(a, m, index, C.TextItem(text), b, n);
    case ContentStart(index, ReasoningBlock(thinking, _, _)) =>
      BeginHolds(a, m, index, C.ReasoningItem(thinking), b, n);
    case ToolCallStart(index, _) => BeginHolds(a, m, index, C.CallItem(|m.calls|), b, n);
    case TextDelta(index, text) => TextHolds(a, m, index, text);
    case ReasoningDelta(index, thinking) => ThinkingHolds(a, m, index, thinking);
    case ToolCallDelta(index, delta) => ArgumentsHold(a, m, index, delta.value);
    case _ => SameItemsHold(a, m, b, n);
  }

  lemma SameItemsHold(a: A.State, m: C.Message, b: A.State, n: C.Message)
    requires HoldsText(a, m) && HoldsCalls(a, m) && (a.nonportable <==> HasReasoning(m))
    requires n.items == m.items && n.calls == m.calls && n.blocks == m.blocks
    requires b.text == a.text && b.tools == a.tools && b.nonportable == a.nonportable
    ensures HoldsText(b, n) && HoldsCalls(b, n) && (b.nonportable <==> HasReasoning(n))
  {}

  /** Every well-bracketed stream is observed without error, and what is held is its message. */
  lemma {:induction false} AccumulatorHolds(events: seq<Event>)
    requires C.Run(events).Some? && forall k :: 0 <= k < |events| ==> PlainStart(events[k])
    ensures A.ObserveAll(events).ok && Holds(A.ObserveAll(events).state, C.Run(events).value)
  {
    hide C.Apply, A.Observe;
    if events != [] {
      var before := events[..|events| - 1];
      AccumulatorHolds(before);
      StepHolds(A.ObserveAll(before).state, C.Run(before).value, events[|events| - 1]);
    } else {
      assert !HasReasoning(C.EMPTY);
    }
  }

  // ---------------------------------------------------------------- the collected content

  /** Block indexes are item positions, as in every stream the Gemini decoder emits. */
  ghost predicate Positional(m: C.Message) {
    && C.WellFormed(m)
    && (forall i :: i in m.blocks <==> 0 <= i < |m.items|)
    && (forall i :: i in m.blocks ==> m.blocks[i] == i)
  }

  /** The blocks of the first `n` items that another turn can carry. */
  function Portables(m: C.Message, n: nat): seq<Block>
    requires n <= |m.items|
    requires forall k :: 0 <= k < |m.items| && m.items[k].CallItem? ==> m.items[k].call < |m.calls|
  {
    if n == 0 then []
    else
      Portables(m, n - 1) +
      match m.items[n - 1]
      case TextItem(text) => [TextBlock(text)]
      case ReasoningItem(_) => []
      case CallItem(c) => [ToolCallBlock(m.calls[c].id, m.calls[c].name, OrEmptyObject(m.calls[c].arguments))]
  }

  /** The positions of those items. */
  function Positions(m: C.Message, n: nat): seq<int>
    requires n <= |m.items|
  {
    if n == 0 then []
    else if m.items[n - 1].ReasoningItem? then Positions(m, n - 1)
    else Positions(m, n - 1) + [n - 1]
  }

  lemma {:induction false} PositionsIncrease(m: C.Message, n: nat)
    requires n <= |m.items|
    ensures forall k :: 0 <= k < |Positions(m, n)| ==> 0 <= Positions(m, n)[k] < n
    ensures forall j, k :: 0 <= j < k < |Positions(m, n)| ==> Positions(m, n)[j] < Positions(m, n)[k]
  {
    if n > 0 {
      PositionsIncrease(m, n - 1);
    }
  }

  lemma {:induction false} PositionsCover(m: C.Message, n: nat, i: int)
    requires n <= |m.items|
    ensures i in Positions(m, n) <==> 0 <= i < n && !m.items[i].ReasoningItem?
  {
    if n > 0 {
      PositionsCover(m, n - 1, i);
    }
  }

  lemma HeldAt(a: A.State, m: C.Message, i: nat)
    requires Holds(a, m) && Positional(m) && i < |m.items|
    ensures (i in a.text || i in a.tools) <==> !m.items[i].ReasoningItem?
    ensures m.items[i].TextItem? ==> A.BlockOf(a, i) == TextBlock(m.items[i].text)
    ensures m.items[i].CallItem? ==>
              var call := m.calls[m.items[i].call];
              A.BlockOf(a, i) == ToolCallBlock(call.id, call.name, OrEmptyObject(call.arguments))
  {}

  lemma CollectSnoc(a: A.State, indexes: seq<int>, index: int)
    requires forall k :: 0 <= k < |indexes| ==> indexes[k] in a.text || indexes[k] in a.tools
    requires index in a.text || index in a.tools
    ensures A.Collect(a, indexes + [index]) == A.Collect(a, indexes) + [A.BlockOf(a, index)]
  {}

  lemma {:induction false} CollectsPortables(a: A.State, m: C.Message, n: nat)
    requires Holds(a, m) && Positional(m) && n <= |m.items|
    ensures forall k :: 0 <= k < |Positions(m, n)| ==> Positions(m, n)[k] in a.text || Positions(m, n)[k] in a.tools
    ensures A.Collect(a, Positions(m, n)) == Portables(m, n)
  {
    hide Positional, HoldsText, HoldsCalls, A.BlockOf;
    if n > 0 {
      CollectsPortables(a, m, n - 1);
      HeldAt(a, m, n - 1);
      if !m.items[n - 1].ReasoningItem? {
        CollectSnoc(a, Positions(m, n - 1), n - 1);
      }
    }
  }

  lemma IndexesArePositions(a: A.State, m: C.Message)
    requires Holds(a, m) && Positional(m)
    ensures A.Indexes(a) == Positions(m, |m.items|)
  {
    var p := Positions(m, |m.items|);
    PositionsIncrease(m, |m.items|);
    forall x ensures x in p <==> x in a.text.Keys + a.tools.Keys {
      PositionsCover(m, |m.items|, x);
      if 0 <= x < |m.items| {
        HeldAt(a, m, x);
      } else {
        assert !IsText(m, x) && !IsCall(m, x);
      }
    }
    Sorting.SortedUnique(a.text.Keys + a.tools.Keys, p);
  }

  /** What a stopped stream is stored as. */
  lemma ContentIsPortables(a: A.State, m: C.Message)
    requires Holds(a, m) && Positional(m)
    ensures A.Content(a) ==
            Portables(m, |m.items|) + if HasReasoning(m) then [ReasoningBlock("", "", "")] else []
  {
    IndexesArePositions(a, m);
    CollectsPortables(a, m, |m.items|);
  }

  // ---------------------------------------------------------------- the two renderings compared

  lemma PortablesStep(c: Config, m: C.Message, n: nat)
    requires C.WellFormed(m) && 0 < n <= |m.items|
    ensures var r := Rendered(c, m, n - 1);
            && ContentCalls(Portables(m, n)) ==
               ContentCalls(Portables(m, n - 1)) + (if r.CallOut? then [CallSeen(r.callID, r.name, r.arguments)] else [])
            && ContentParts(c.refusal, Portables(m, n)) ==
               ContentParts(c.refusal, Portables(m, n - 1)) + (if r.MessageOut? then r.content else [])
            && ContentText(Portables(m, n)) == ContentText(Portables(m, n - 1)) + C.ItemText(m.items[n - 1])
  {
    var before := Portables(m, n - 1);
    if m.items[n - 1].ReasoningItem? {
      assert Portables(m, n) == before;
      assert ContentText(before) + "" == ContentText(before);
    } else {
      assert Portables(m, n)[..|before|] == before;
    }
  }

  ghost predicate AgreeTo(c: Config, m: C.Message, n: nat)
    requires C.WellFormed(m) && n <= |m.items|
  {
    && CallsOf(Output(c, m)[..n]) == ContentCalls(Portables(m, n))
    && PartsOf(Output(c, m)[..n]) == ContentParts(c.refusal, Portables(m, n))
    && ContentText(Portables(m, n)) == C.TextOf(m.items[..n])
  }

  lemma AgreeStep(c: Config, m: C.Message, n: nat)
    requires C.WellFormed(m) && 0 < n <= |m.items| && AgreeTo(c, m, n - 1)
    ensures AgreeTo(c, m, n)
  {
    hide Portables, Rendered, CallsOf, PartsOf, ContentCalls, ContentParts, ContentText, C.TextOf;
    PortablesStep(c, m, n);
    assert Output(c, m)[..n] == Output(c, m)[..n - 1] + [Rendered(c, m, n - 1)];
    OutputSnoc(Output(c, m)[..n - 1], Rendered(c, m, n - 1));
    assert m.items[..n] == m.items[..n - 1] + [m.items[n - 1]];
    C.TextOfSnoc(m.items[..n - 1], m.items[n - 1]);
  }

  /** Item by item the stored content and the streamed output carry the same calls and texts. */
  lemma {:induction false} RenderingsAgree(c: Config, m: C.Message, n: nat)
    requires C.WellFormed(m) && n <= |m.items|
    ensures AgreeTo(c, m, n)
  {
    if n > 0 {
      RenderingsAgree(c, m, n - 1);
      AgreeStep(c, m, n);
    }
  }

  /** The trailing reasoning marker adds nothing to what a reader of the output sees. */
  lemma MarkerSaysNothing(refusal: bool, content: seq<Block>)
    ensures var marked := content + [ReasoningBlock("", "", "")];
            && ContentCalls(marked) == ContentCalls(content)
            && ContentParts(refusal, marked) == ContentParts(refusal, content)
            && ContentText(marked) == ContentText(content)
            && !AllPortable(marked)
  {}
}
