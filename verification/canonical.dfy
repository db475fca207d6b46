/**
 The reference meaning of a canonical event stream, independent of every decoder and encoder:
 a partial interpreter that rejects ill-bracketed streams and otherwise collects the message
 the stream denotes.
 */
module Canonical {
  import opened Llm

  datatype Call = Call(id: string, name: string, arguments: string)

  /** A call item names its call by position in `Message.calls`. */
  datatype Item = TextItem(text: string) | ReasoningItem(thinking: string) | CallItem(call: nat)

  /** `text` collects every text delta in arrival order, `done` the calls in the order their
      blocks closed; `blocks` maps each index ever opened to its item. */
  datatype Message = Message(
    started: bool, id: string, model: string,
    items: seq<Item>, calls: seq<Call>, done: seq<Call>,
    blocks: map<int, nat>, open: set<int>,
    text: string, usage: Usage, stop: Option<StopReason>)
  {
    predicate Live() { started && stop.None? }

    predicate Fresh(index: int) { Live() && index !in blocks }

    predicate OpenText(index: int) {
      Live() && index in open && index in blocks && blocks[index] < |items| && items[blocks[index]].TextItem?
    }

    predicate OpenReasoning(index: int) {
      Live() && index in open && index in blocks && blocks[index] < |items| && items[blocks[index]].ReasoningItem?
    }

    predicate OpenCall(index: int) {
      && Live() && index in open && index in blocks && blocks[index] < |items|
      && items[blocks[index]].CallItem? && items[blocks[index]].call < |calls|
    }

    function Begin(index: int, item: Item): Message {
      this.(items := items + [item], blocks := blocks[index := |items|], open := open + {index})
    }
  }

  const EMPTY := Message(false, "", "", [], [], [], map[], {}, "", NO_USAGE, None)

  function Apply(m: Message, e: Event): Option<Message> {
    match e
    case ResponseStart(id, model) =>
      if m.started then None else Some(m.(started := true, id := id, model := model))
    case ContentStart(index, TextBlock(text)) =>
      if !m.Fresh(index) then None else Some(m.Begin(index, TextItem(text)).(text := m.text + text))
    case ContentStart(index, ReasoningBlock(thinking, signature, redacted)) =>
      if !m.Fresh(index) || signature != "" || redacted != "" then None
      else Some(m.Begin(index, ReasoningItem(thinking)))
    case ContentStart(_, _) => None
    case ToolCallStart(index, ToolCallBlock(id, name, _)) =>
      if !m.Fresh(index) then None
      else Some(m.Begin(index, CallItem(|m.calls|)).(calls := m.calls + [Call(id, name, "")]))
    case ToolCallStart(_, _) => None
    case TextDelta(index, text) =>
      if !m.OpenText(index) then None
      else
        var k := m.blocks[index];
        Some(m.(items := m.items[k := TextItem(m.items[k].text + text)], text := m.text + text))
    case ReasoningDelta(index, thinking) =>
      if !m.OpenReasoning(index) then None
      else
        var k := m.blocks[index];
        Some(m.(items := m.items[k := ReasoningItem(m.items[k].thinking + thinking)]))
    case ToolCallDelta(index, delta) =>
      if !m.OpenCall(index) || delta.None? then None
      else
        var c := m.items[m.blocks[index]].call;
        Some(m.(calls := m.calls[c := m.calls[c].(arguments := m.calls[c].arguments + delta.value.arguments)]))
    case ContentStop(index) =>
      if m.OpenCall(index) then
        Some(m.(open := m.open - {index}, done := m.done + [m.calls[m.items[m.blocks[index]].call]]))
      else if m.OpenText(index) || m.OpenReasoning(index) then Some(m.(open := m.open - {index}))
      else None
    case UsageReport(usage) => Some(if usage.None? then m else m.(usage := usage.value))
    case ResponseStop(reason, _) =>
      if !m.Live() || m.open != {} then None else Some(m.(stop := Some(reason)))
    case AudioDelta(_, _, _) => None
    case Failure(_) => None
  }

  function Run(events: seq<Event>): Option<Message> {
    if events == [] then Some(EMPTY)
    else
      match Run(events[..|events| - 1])
      case None => None
      case Some(m) => Apply(m, events[|events| - 1])
  }

  lemma RunSnoc(events: seq<Event>, e: Event)
    ensures Run(events + [e]) == (match Run(events) case None => None case Some(m) => Apply(m, e))
  {
    assert (events + [e])[..|events|] == events;
  }

  /** A rejected prefix is never repaired by what follows. */
  lemma {:induction false} RunPrefix(events: seq<Event>, more: seq<Event>)
    requires Run(events + more).Some?
    ensures Run(events).Some?
  {
    if more == [] {
      assert events + more == events;
    } else {
      var last := |more| - 1;
      assert events + more == (events + more[..last]) + [more[last]];
      RunSnoc(events + more[..last], more[last]);
      RunPrefix(events, more[..last]);
    }
  }

  /** What holds of every message the interpreter builds. */
  ghost predicate WellFormed(m: Message) {
    && (forall i :: i in m.open ==> i in m.blocks)
    && (forall i :: i in m.blocks ==> m.blocks[i] < |m.items|)
    && (forall i, j :: i in m.blocks && j in m.blocks && i != j ==> m.blocks[i] != m.blocks[j])
    && (forall k :: 0 <= k < |m.items| && m.items[k].CallItem? ==> m.items[k].call < |m.calls|)
    && (forall j, k :: 0 <= j < k < |m.items| && m.items[j].CallItem? && m.items[k].CallItem? ==>
          m.items[j].call < m.items[k].call)
    && (!m.started ==> m.blocks == map[] && m.items == [] && m.calls == [] && m.text == "" && m.stop.None?)
    && (m.stop.Some? ==> m.open == {})
  }

  lemma BeginWellFormed(m: Message, index: int, item: Item)
    requires WellFormed(m) && m.Fresh(index)
    requires item.CallItem? ==> item.call == |m.calls|
    ensures forall calls, text :: |calls| == |m.calls| + (if item.CallItem? then 1 else 0) ==>
              WellFormed(m.Begin(index, item).(calls := calls, text := text))
  {
  }

  lemma ApplyWellFormed(m: Message, e: Event)
    requires WellFormed(m) && Apply(m, e).Some?
    ensures WellFormed(Apply(m, e).value)
  {
    match e
    case ContentStart(index, TextBlock(text)) => BeginWellFormed(m, index, TextItem(text));
    case ContentStart(index, ReasoningBlock(thinking, _, _)) =>
      BeginWellFormed(m, index, ReasoningItem(thinking));
      var r := m.Begin(index, ReasoningItem(thinking));
      assert r == r.(calls := m.calls, text := m.text);
    case ToolCallStart(index, ToolCallBlock(id, name, _)) =>
      BeginWellFormed(m, index, CallItem(|m.calls|));
      var r := m.Begin(index, CallItem(|m.calls|)).(calls := m.calls + [Call(id, name, "")]);
      assert r == r.(calls := m.calls + [Call(id, name, "")], text := m.text);
    case _ =>
  }

  lemma {:induction false} RunWellFormed(events: seq<Event>)
    requires Run(events).Some?
    ensures WellFormed(Run(events).value)
  {
    if events != [] {
      RunWellFormed(events[..|events| - 1]);
      ApplyWellFormed(Run(events[..|events| - 1]).value, events[|events| - 1]);
    }
  }

  /** The text of a message read block by block. */
  function ItemText(item: Item): string {
    if item.TextItem? then item.text else ""
  }

  function TextOf(items: seq<Item>): string {
    if items == [] then "" else TextOf(items[..|items| - 1]) + ItemText(items[|items| - 1])
  }

  lemma TextOfSnoc(items: seq<Item>, item: Item)
    ensures TextOf(items + [item]) == TextOf(items) + ItemText(item)
  {
    assert (items + [item])[..|items|] == items;
  }

  // ---------------------------------------------------------------- calls and items

  /** The call items name the calls one after the other. */
  ghost predicate Numbered(items: seq<Item>, calls: nat) {
    if items == [] then calls == 0
    else
      var last, rest := items[|items| - 1], items[..|items| - 1];
      if last.CallItem? then calls > 0 && last.call == calls - 1 && Numbered(rest, calls - 1) else Numbered(rest, calls)
  }

  lemma NumberedSnoc(items: seq<Item>, calls: nat, item: Item)
    requires Numbered(items, calls) && (item.CallItem? ==> item.call == calls)
    ensures Numbered(items + [item], if item.CallItem? then calls + 1 else calls)
  {
    assert (items + [item])[..|items|] == items;
  }

  lemma {:induction false} NumberedUpdate(items: seq<Item>, calls: nat, k: nat, item: Item)
    requires Numbered(items, calls) && k < |items| && !items[k].CallItem? && !item.CallItem?
    ensures Numbered(items[k := item], calls)
  {
    var n := |items| - 1;
    if k < n {
      assert items[k := item][..n] == items[..n][k := item];
      NumberedUpdate(items[..n], if items[n].CallItem? then calls - 1 else calls, k, item);
    } else {
      assert items[k := item][..n] == items[..n];
    }
  }

  lemma ApplyNumbered(m: Message, e: Event)
    requires Numbered(m.items, |m.calls|) && Apply(m, e).Some?
    ensures var n := Apply(m, e).value; Numbered(n.items, |n.calls|)
  {
    hide Numbered;
    match e
    case ContentStart(_, TextBlock(text)) => NumberedSnoc(m.items, |m.calls|, TextItem(text));
    case ContentStart(_, ReasoningBlock(thinking, _, _)) => NumberedSnoc(m.items, |m.calls|, ReasoningItem(thinking));
    case ToolCallStart(_, _) => NumberedSnoc(m.items, |m.calls|, CallItem(|m.calls|));
    case TextDelta(index, text) =>
      NumberedUpdate(m.items, |m.calls|, m.blocks[index], TextItem(m.items[m.blocks[index]].text + text));
    case ReasoningDelta(index, thinking) =>
      NumberedUpdate(m.items, |m.calls|, m.blocks[index], ReasoningItem(m.items[m.blocks[index]].thinking + thinking));
    case _ =>
  }

  lemma {:induction false} RunNumbered(events: seq<Event>)
    requires Run(events).Some?
    ensures var m := Run(events).value; Numbered(m.items, |m.calls|)
  {
    hide Apply;
    if events != [] {
      RunNumbered(events[..|events| - 1]);
      ApplyNumbered(Run(events[..|events| - 1]).value, events[|events| - 1]);
    }
  }

  /** Every call has its item. */
  lemma {:induction false} CallHasItem(items: seq<Item>, calls: nat, c: nat) returns (k: nat)
    requires Numbered(items, calls) && c < calls
    ensures k < |items| && items[k] == CallItem(c)
  {
    var n := |items| - 1;
    if items[n] == CallItem(c) {
      k := n;
    } else {
      k := CallHasItem(items[..n], if items[n].CallItem? then calls - 1 else calls, c);
    }
  }

  function CountCalls(items: seq<Item>): nat {
    if items == [] then 0 else CountCalls(items[..|items| - 1]) + if items[|items| - 1].CallItem? then 1 else 0
  }

  lemma {:induction false} NumberedPrefix(items: seq<Item>, calls: nat, k: nat)
    requires Numbered(items, calls) && k <= |items|
    ensures Numbered(items[..k], CountCalls(items[..k])) && calls == CountCalls(items)
  {
    if items == [] {
    } else {
      var n := |items| - 1;
      NumberedPrefix(items[..n], if items[n].CallItem? then calls - 1 else calls, if k < |items| then k else n);
      if k < |items| {
        assert items[..n][..k] == items[..k];
      } else {
        assert items[..k] == items;
      }
    }
  }

  /** The integers from `k` up to but not including `n`. */
  function Between(k: nat, n: nat): set<int>
    decreases n - k
  {
    if k >= n then {} else Between(k + 1, n) + {k}
  }

  lemma {:induction false} BetweenHas(k: nat, n: nat, i: int)
    ensures i in Between(k, n) <==> k <= i < n
    decreases n - k
  {
    if k < n {
      BetweenHas(k + 1, n, i);
    }
  }

  lemma {:induction false} BetweenGrows(k: nat, n: nat)
    requires k <= n
    ensures Between(k, n + 1) == Between(k, n) + {n}
    decreases n - k
  {
    if k < n {
      BetweenGrows(k + 1, n);
    }
  }

  lemma BetweenDrops(k: nat, n: nat)
    requires k < n
    ensures Between(k, n) - {k} == Between(k + 1, n)
  {
    BetweenHas(k + 1, n, k);
  }
}
