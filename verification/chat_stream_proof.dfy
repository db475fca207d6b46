/** Chat chunks read directly, and the decoder and encoder compared with that reading. */
module ChatReading {
  import opened Llm
  import C = Canonical
  import opened ChatStream
  import P = GeminiDecoderProof
  import Sorting

  /** `slots` says which call each wire index denotes; `stop` is set once `[DONE]` was read. */
  datatype Reading = Reading(
    started: bool, id: string, model: string, text: string, calls: seq<C.Call>, slots: map<int, nat>,
    usage: Usage, pending: Option<StopReason>, stop: Option<StopReason>)

  const UNREAD := Reading(false, "", "", "", [], map[], NO_USAGE, None, None)

  function ReadCall(r: Reading, c: ToolCallPart): Reading {
    if c.index !in r.slots then
      r.(calls := r.calls + [C.Call(c.id, c.name, c.arguments)], slots := r.slots[c.index := |r.calls|])
    else
      var k := r.slots[c.index];
      if k >= |r.calls| then r
      else r.(calls := r.calls[k := r.calls[k].(arguments := r.calls[k].arguments + c.arguments)])
  }

  function ReadCalls(r: Reading, calls: seq<ToolCallPart>): Reading {
    if calls == [] then r else ReadCall(ReadCalls(r, calls[..|calls| - 1]), calls[|calls| - 1])
  }

  function ReadChoice(r: Reading, c: Choice): Option<Reading> {
    if c.index != 0 then None
    else
      var t := if c.content.Some? then r.(text := r.text + c.content.value) else r;
      var u := ReadCalls(t, c.calls);
      if c.finish.None? then Some(u)
      else if DecodeFinish(c.finish.value) == Unknown then None
      else Some(u.(pending := Some(DecodeFinish(c.finish.value))))
  }

  function ReadChoices(r: Reading, choices: seq<Choice>): Option<Reading> {
    if choices == [] then Some(r)
    else
      match ReadChoices(r, choices[..|choices| - 1])
      case None => None
      case Some(t) => ReadChoice(t, choices[|choices| - 1])
  }

  /** After `[DONE]` only empty data may follow. */
  function ReadFrame(r: Reading, frame: Frame): Option<Reading> {
    match frame
    case Empty => Some(r)
    case Malformed => None
    case Done =>
      if r.stop.Some? || r.pending.None? then None else Some(r.(stop := r.pending))
    case Data(chunk) =>
      if r.stop.Some? then None
      else
        var t := if r.started then r else r.(started := true, id := chunk.id, model := chunk.model);
        ReadChoices(if chunk.usage.Some? then t.(usage := DecodeUsage(chunk.usage.value)) else t, chunk.choices)
  }

  function Read(frames: seq<Frame>): Option<Reading> {
    if frames == [] then Some(UNREAD)
    else
      match Read(frames[..|frames| - 1])
      case None => None
      case Some(r) => ReadFrame(r, frames[|frames| - 1])
  }

  lemma ReadSnoc(frames: seq<Frame>, frame: Frame)
    ensures Read(frames + [frame]) == (match Read(frames) case None => None case Some(r) => ReadFrame(r, frame))
  {}

  // ---------------------------------------------------------------- the encoder writes what it was told

  /** Everything a Chat chunk can carry of an event: no reasoning but for a block that stays empty, and
      no text in a block start. */
  predicate Expressible(e: Event) {
    && (e.ContentStart? ==> e.block == TextBlock("") || e.block.ReasoningBlock?)
    && !e.ReasoningDelta?
    && (e.ResponseStop? ==> e.reason != Unknown)
  }

  function ChatStop(reason: StopReason): StopReason {
    if reason == StopSequence then EndTurn else reason
  }

  ghost predicate SameSlots(e: Encoder, m: C.Message, r: Reading)
    requires C.WellFormed(m)
  {
    && e.nextTool == |m.calls|
    && (forall i :: i in e.toolIndexes <==> i in m.blocks && m.items[m.blocks[i]].CallItem?)
    && (forall i :: i in e.toolIndexes ==> e.toolIndexes[i] == m.items[m.blocks[i]].call)
    && (forall x :: x in r.slots <==> 0 <= x < |m.calls|)
    && (forall x :: x in r.slots ==> r.slots[x] == x)
  }

  ghost predicate Tells(e: Encoder, m: C.Message) {
    && C.WellFormed(m)
    && Read(e.written).Some?
    && var r := Read(e.written).value;
       && r.started == m.started == e.started
       && (m.started ==> e.id == r.id == m.id && e.model == r.model == m.model)
       && r.text == m.text && r.calls == m.calls
       && (m.stop.None? ==> r.stop.None? && r.pending.None? && r.usage == NO_USAGE && SameSlots(e, m, r))
       && (m.stop.Some? ==> r.stop == Some(ChatStop(m.stop.value)))
       && m.usage == (if e.usage.Some? then e.usage.value else NO_USAGE)
  }

  lemma WriteReads(e: Encoder, content: Option<string>, calls: seq<ToolCallPart>, finish: Option<string>)
    requires Read(e.written).Some? && Read(e.written).value.stop.None?
    requires finish.Some? ==> DecodeFinish(finish.value) != Unknown
    ensures var r := Read(e.written).value;
            var t := if r.started then r else r.(started := true, id := e.id, model := e.model);
            var u := ReadCalls(if content.Some? then t.(text := t.text + content.value) else t, calls);
            Read(WriteChoice(e, content, calls, finish).written) ==
            Some(if finish.Some? then u.(pending := Some(DecodeFinish(finish.value))) else u)
  {
    hide Read;
    var choice := Choice(0, content, calls, finish);
    ReadSnoc(e.written, Data(Chunk(e.id, e.model, [choice], None)));
    var r := Read(e.written).value;
    var t := if r.started then r else r.(started := true, id := e.id, model := e.model);
    assert [choice][..0] == [];
    assert ReadChoices(t, [choice]) == ReadChoice(t, choice);
  }

  lemma OneCall(r: Reading, c: ToolCallPart)
    ensures ReadCalls(r, [c]) == ReadCall(r, c)
  {}

  lemma TellStart(u: bool, e: Encoder, m: C.Message, event: Event)
    requires Tells(e, m) && C.Apply(m, event).Some? && event.ResponseStart?
    ensures Encode(u, e, event).ok && Tells(Encode(u, e, event).state, C.Apply(m, event).value)
  {
    hide Read;
    var t := e.(id := event.id, model := event.model, started := true);
    WriteReads(t, None, [], None);
    C.ApplyWellFormed(m, event);
  }

  lemma TellText(u: bool, e: Encoder, m: C.Message, index: int, text: string)
    requires Tells(e, m) && m.OpenText(index)
    ensures Encode(u, e, TextDelta(index, text)).ok
    ensures Tells(Encode(u, e, TextDelta(index, text)).state, C.Apply(m, TextDelta(index, text)).value)
  {
    hide Read;
    WriteReads(e, Some(text), [], None);
    C.ApplyWellFormed(m, TextDelta(index, text));
  }

  lemma TellToolStart(u: bool, e: Encoder, m: C.Message, event: Event)
    requires Tells(e, m) && C.Apply(m, event).Some? && event.ToolCallStart?
    ensures Encode(u, e, event).ok && Tells(Encode(u, e, event).state, C.Apply(m, event).value)
  {
    hide Read;
    var k, n := |m.calls|, C.Apply(m, event).value;
    var part := ToolCallPart(k, event.block.id, event.block.name, "");
    var t := e.(toolIndexes := e.toolIndexes[event.index := k], nextTool := k + 1);
    WriteReads(t, None, [part], None);
    OneCall(Read(e.written).value, part);
    C.ApplyWellFormed(m, event);
    forall i | i != event.index && i in m.blocks
      ensures n.items[n.blocks[i]] == m.items[m.blocks[i]]
    {
    }
  }

  lemma TellArguments(u: bool, e: Encoder, m: C.Message, index: int, delta: ToolDelta)
    requires Tells(e, m) && m.OpenCall(index)
    ensures Encode(u, e, ToolCallDelta(index, Some(delta))).ok
    ensures Tells(Encode(u, e, ToolCallDelta(index, Some(delta))).state,
                  C.Apply(m, ToolCallDelta(index, Some(delta))).value)
  {
    hide Read;
    var part := ToolCallPart(e.toolIndexes[index], "", "", delta.arguments);
    WriteReads(e, None, [part], None);
    OneCall(Read(e.written).value, part);
    C.ApplyWellFormed(m, ToolCallDelta(index, Some(delta)));
  }

  lemma TellBlockStart(u: bool, e: Encoder, m: C.Message, event: Event)
    requires Tells(e, m) && C.Apply(m, event).Some? && Expressible(event) && event.ContentStart?
    ensures Tells(e, C.Apply(m, event).value)
  {
    hide Read;
    C.ApplyWellFormed(m, event);
    var n := C.Apply(m, event).value;
    assert n.text == m.text by {
      assert m.text + "" == m.text;
    }
    hide C.Apply;
    forall i | i in m.blocks ensures n.items[n.blocks[i]] == m.items[m.blocks[i]] {
    }
  }

  /** Starting or stopping a text block, and usage, write nothing. */
  lemma TellNothing(u: bool, e: Encoder, m: C.Message, event: Event)
    requires Tells(e, m) && C.Apply(m, event).Some? && Expressible(event)
    requires event.ContentStart? || event.ContentStop? || event.UsageReport?
    ensures Encode(u, e, event).ok && Tells(Encode(u, e, event).state, C.Apply(m, event).value)
  {
    hide Read;
    if event.ContentStart? {
      TellBlockStart(u, e, m, event);
    } else {
      C.ApplyWellFormed(m, event);
    }
  }

  lemma DecodeEncodedFinish(reason: StopReason)
    requires reason != Unknown
    ensures EncodeFinish(reason).Some? && DecodeFinish(EncodeFinish(reason).value) == ChatStop(reason)
  {
  }

  lemma DecodeEncodedUsage(usage: Usage)
    ensures DecodeUsage(EncodeUsage(usage)) == usage.(cacheWrite := 0)
  {
  }

  lemma TellStop(u: bool, e: Encoder, m: C.Message, event: Event)
    requires Tells(e, m) && C.Apply(m, event).Some? && event.ResponseStop? && event.reason != Unknown
    ensures Encode(u, e, event).ok && Tells(Encode(u, e, event).state, C.Apply(m, event).value)
    ensures Read(Encode(u, e, event).state.written).value.usage == if u then m.usage.(cacheWrite := 0) else NO_USAGE
  {
    hide Read;
    DecodeEncodedFinish(event.reason);
    var t := WriteChoice(e, None, [], EncodeFinish(event.reason));
    WriteReads(e, None, [], EncodeFinish(event.reason));
    var w := t.written;
    if u && e.usage.Some? {
      var frame := Data(Chunk(t.id, t.model, [], Some(EncodeUsage(t.usage.value))));
      ReadSnoc(w, frame);
      DecodeEncodedUsage(e.usage.value);
      w := w + [frame];
    }
    ReadSnoc(w, Done);
    C.ApplyWellFormed(m, event);
  }

  lemma TellStep(u: bool, e: Encoder, m: C.Message, event: Event)
    requires Tells(e, m) && C.Apply(m, event).Some? && Expressible(event)
    ensures Encode(u, e, event).ok && Tells(Encode(u, e, event).state, C.Apply(m, event).value)
  {
    hide Tells, Encode;
    match event
    case ResponseStart(_, _) => TellStart(u, e, m, event);
    case TextDelta(index, text) => TellText(u, e, m, index, text);
    case ToolCallStart(_, _) => TellToolStart(u, e, m, event);
    case ToolCallDelta(index, delta) => TellArguments(u, e, m, index, delta.value);
    case ResponseStop(_, _) => TellStop(u, e, m, event);
    case ReasoningDelta(_, _) => assert false;
    case _ => TellNothing(u, e, m, event);
  }

  /** For every well-bracketed stream without reasoning: the encoder accepts it, and its chunks read
      back as the same text, the same calls and the same stop, `stop` standing for two of them. */
  lemma {:induction false} EncoderTells(u: bool, events: seq<Event>)
    requires C.Run(events).Some? && forall k :: 0 <= k < |events| ==> Expressible(events[k])
    ensures EncodeAll(u, events).ok && Tells(EncodeAll(u, events).state, C.Run(events).value)
  {
    hide C.Apply, Tells, Encode, Expressible;
    if events == [] {
      TellsNothing();
    } else {
      var before := events[..|events| - 1];
      EncoderTells(u, before);
      TellStep(u, EncodeAll(u, before).state, C.Run(before).value, events[|events| - 1]);
    }
  }

  lemma TellsNothing()
    ensures Tells(UNSTARTED, C.EMPTY)
  {
  }

  /** A stream that ends with its stop is told with the usage last reported before it, if asked for. */
  lemma EncoderTellsUsage(u: bool, events: seq<Event>, last: Event)
    requires C.Run(events + [last]).Some? && last.ResponseStop?
    requires forall k :: 0 <= k < |events + [last]| ==> Expressible((events + [last])[k])
    ensures Read(EncodeAll(u, events + [last]).state.written).Some?
    ensures Read(EncodeAll(u, events + [last]).state.written).value.usage ==
            if u then C.Run(events + [last]).value.usage.(cacheWrite := 0) else NO_USAGE
  {
    hide Encode, Read;
    C.RunSnoc(events, last);
    assert (events + [last])[..|events|] == events;
    assert (events + [last])[|events|] == last;
    forall k | 0 <= k < |events| ensures Expressible(events[k]) {
      assert events[k] == (events + [last])[k];
    }
    EncoderTells(u, events);
    TellStop(u, EncodeAll(u, events).state, C.Run(events).value, last);
  }

  // ---------------------------------------------------------------- the decoder means what it was told

  /** Where the decoder's blocks are in the message it has described so far. */
  ghost predicate Blocks(d: Decoder, m: C.Message) {
    && |m.items| == d.nextBlock && m.blocks == P.Identity(d.nextBlock)
    && m.open == C.Between(0, d.nextBlock) && d.openBlocks == C.Between(0, d.nextBlock)
    && (d.textBlock.Some? ==> d.textBlock.value < d.nextBlock && m.items[d.textBlock.value].TextItem?)
  }

  ghost predicate Slots(d: Decoder, m: C.Message, r: Reading) {
    && (forall x :: x in d.toolBlocks <==> x in r.slots)
    && (forall x :: x in r.slots ==> r.slots[x] < |m.calls|)
    && (forall x :: x in d.toolBlocks ==>
          d.toolBlocks[x] < |m.items| && m.items[d.toolBlocks[x]] == C.CallItem(r.slots[x]))
  }

  ghost predicate Says(m: C.Message, r: Reading) {
    && m.started == r.started && m.id == r.id && m.model == r.model
    && m.text == r.text && m.calls == r.calls && m.usage == r.usage && m.stop == r.stop
  }

  ghost predicate Hears(d: Decoder, m: C.Message, r: Reading) {
    && C.Run(d.emitted) == Some(m) && Says(m, r) && C.Numbered(m.items, |m.calls|)
    && d.started == r.started && d.pending == r.pending && d.done == r.stop.Some?
    && (r.stop.None? ==> Blocks(d, m) && Slots(d, m, r) && m.done == [] && (!r.started ==> d.nextBlock == 0))
    && (r.stop.Some? ==> m.open == {} && d.openBlocks == {} && m.done == m.calls)
  }

  /** Emitting an event moves the message along. */
  lemma Sent(d: Decoder, m: C.Message, e: Event)
    requires C.Run(d.emitted) == Some(m) && C.Numbered(m.items, |m.calls|) && C.Apply(m, e).Some?
    ensures C.Run(d.emitted + [e]) == C.Apply(m, e)
    ensures var n := C.Apply(m, e).value; C.Numbered(n.items, |n.calls|)
  {
    C.RunSnoc(d.emitted, e);
    C.ApplyNumbered(m, e);
  }

  lemma OpenTextHears(d: Decoder, m: C.Message, r: Reading) returns (n: C.Message)
    requires Hears(d, m, r) && r.started && r.stop.None?
    ensures Hears(OpenText(d), n, r)
  {
    hide C.Run, C.Numbered, C.WellFormed;
    n := m;
    if d.textBlock.None? {
      var e := ContentStart(d.nextBlock, TextBlock(""));
      P.IdentityAt(d.nextBlock, d.nextBlock);
      C.BetweenGrows(0, d.nextBlock);
      Sent(d, m, e);
      n := C.Apply(m, e).value;
      assert m.text + "" == m.text;
    }
  }

  lemma ContentHears(d: Decoder, m: C.Message, r: Reading, content: string) returns (n: C.Message)
    requires Hears(d, m, r) && r.started && r.stop.None?
    ensures Hears(HearContent(d, content), n, r.(text := r.text + content))
  {
    hide C.Run, C.Numbered, C.WellFormed;
    n := OpenTextHears(d, m, r);
    var t := OpenText(d);
    if content == "" {
      assert r.text + "" == r.text;
    } else {
      n := AppendHears(t, n, r, content);
    }
  }

  lemma AppendHears(d: Decoder, m: C.Message, r: Reading, content: string) returns (n: C.Message)
    requires Hears(d, m, r) && r.started && r.stop.None? && d.textBlock.Some?
    ensures Hears(Emit(d, TextDelta(d.textBlock.value, content)), n, r.(text := r.text + content))
  {
    hide C.Run, C.Numbered, C.WellFormed;
    var e := TextDelta(d.textBlock.value, content);
    P.IdentityAt(d.nextBlock, d.textBlock.value);
    C.BetweenHas(0, d.nextBlock, d.textBlock.value);
    Sent(d, m, e);
    n := C.Apply(m, e).value;
  }

  lemma OpenToolHears(d: Decoder, m: C.Message, r: Reading, c: ToolCallPart) returns (n: C.Message)
    requires Hears(d, m, r) && r.started && r.stop.None? && c.index !in r.slots
    ensures Hears(OpenTool(d, c), n, ReadCall(r, c.(arguments := "")))
  {
    hide C.Run, C.Numbered, C.WellFormed;
    var e := ToolCallStart(d.nextBlock, ToolCallBlock(c.id, c.name, "{}"));
    P.IdentityAt(d.nextBlock, d.nextBlock);
    C.BetweenGrows(0, d.nextBlock);
    Sent(d, m, e);
    n := C.Apply(m, e).value;
  }

  lemma ArgumentsHear(d: Decoder, m: C.Message, r: Reading, c: ToolCallPart) returns (n: C.Message)
    requires Hears(d, m, r) && r.started && r.stop.None? && c.index in r.slots
    ensures Hears(HearCall(d, c), n, ReadCall(r, c))
  {
    hide C.Run, C.Numbered, C.WellFormed;
    var k := r.slots[c.index];
    if c.arguments == "" {
      n := m;
      assert r.calls[k].arguments + "" == r.calls[k].arguments;
      assert r.calls[k := r.calls[k]] == r.calls;
    } else {
      var e := ToolCallDelta(d.toolBlocks[c.index], Some(ToolDelta("", "", c.arguments)));
      P.IdentityAt(d.nextBlock, d.toolBlocks[c.index]);
      C.BetweenHas(0, d.nextBlock, d.toolBlocks[c.index]);
      Sent(d, m, e);
      n := C.Apply(m, e).value;
    }
  }

  lemma OpenThenArguments(r: Reading, c: ToolCallPart)
    requires c.index !in r.slots
    ensures ReadCall(ReadCall(r, c.(arguments := "")), c) == ReadCall(r, c)
  {
    assert "" + c.arguments == c.arguments;
    var n := |r.calls|;
    assert (r.calls + [C.Call(c.id, c.name, "")])[n := C.Call(c.id, c.name, c.arguments)]
        == r.calls + [C.Call(c.id, c.name, c.arguments)];
  }

  lemma CallHears(d: Decoder, m: C.Message, r: Reading, c: ToolCallPart) returns (n: C.Message)
    requires Hears(d, m, r) && r.started && r.stop.None?
    ensures Hears(HearCall(d, c), n, ReadCall(r, c))
  {
    hide C.Run, C.Numbered, C.WellFormed, C.Apply;
    if c.index in r.slots {
      n := ArgumentsHear(d, m, r, c);
    } else {
      n := OpenToolHears(d, m, r, c);
      OpenThenArguments(r, c);
      n := ArgumentsHear(OpenTool(d, c), n, ReadCall(r, c.(arguments := "")), c);
    }
  }

  lemma {:induction false} CallsHear(d: Decoder, m: C.Message, r: Reading, calls: seq<ToolCallPart>)
    returns (n: C.Message)
    requires Hears(d, m, r) && r.started && r.stop.None?
    ensures Hears(HearCalls(d, calls), n, ReadCalls(r, calls))
    ensures ReadCalls(r, calls).started && ReadCalls(r, calls).stop.None?
  {
    hide Hears, HearCall;
    n := m;
    if calls != [] {
      var before := calls[..|calls| - 1];
      n := CallsHear(d, m, r, before);
      n := CallHears(HearCalls(d, before), n, ReadCalls(r, before), calls[|calls| - 1]);
    }
  }

  lemma ChoiceHears(d: Decoder, m: C.Message, r: Reading, c: Choice) returns (n: C.Message)
    requires Hears(d, m, r) && r.started && r.stop.None?
    ensures HearChoice(d, c).ok == ReadChoice(r, c).Some?
    ensures HearChoice(d, c).ok ==>
              && Hears(HearChoice(d, c).state, n, ReadChoice(r, c).value)
              && ReadChoice(r, c).value.started && ReadChoice(r, c).value.stop.None?
  {
    hide C.Run, C.Numbered, C.WellFormed, C.Apply, HearContent, HearCalls, ReadCalls, Blocks, Slots;
    n := m;
    if c.index == 0 {
      var t, s := d, r;
      if c.content.Some? {
        n := ContentHears(d, m, r, c.content.value);
        t, s := HearContent(d, c.content.value), r.(text := r.text + c.content.value);
      }
      n := CallsHear(t, n, s, c.calls);
      var u := HearCalls(t, c.calls);
      if c.finish.Some? {
        PendingIrrelevant(u, n, ReadCalls(s, c.calls), Some(DecodeFinish(c.finish.value)));
      }
    }
  }

  lemma PendingIrrelevant(d: Decoder, m: C.Message, r: Reading, pending: Option<StopReason>)
    requires Hears(d, m, r)
    ensures Hears(d.(pending := pending), m, r.(pending := pending))
  {
  }

  lemma {:induction false} ChoicesHear(d: Decoder, m: C.Message, r: Reading, choices: seq<Choice>)
    returns (n: C.Message)
    requires Hears(d, m, r) && r.started && r.stop.None?
    ensures HearChoices(d, choices).ok == ReadChoices(r, choices).Some?
    ensures HearChoices(d, choices).ok ==>
              && Hears(HearChoices(d, choices).state, n, ReadChoices(r, choices).value)
              && ReadChoices(r, choices).value.started && ReadChoices(r, choices).value.stop.None?
  {
    hide Hears, HearChoice, ReadChoice;
    n := m;
    if choices != [] {
      var before := choices[..|choices| - 1];
      n := ChoicesHear(d, m, r, before);
      if HearChoices(d, before).ok {
        n := ChoiceHears(HearChoices(d, before).state, n, ReadChoices(r, before).value, choices[|choices| - 1]);
      }
    }
  }

  lemma BeginHears(d: Decoder, m: C.Message, r: Reading, chunk: Chunk) returns (n: C.Message)
    requires Hears(d, m, r) && r.stop.None?
    ensures var t := if r.started then r else r.(started := true, id := chunk.id, model := chunk.model);
            Hears(Begin(d, chunk), n, if chunk.usage.Some? then t.(usage := DecodeUsage(chunk.usage.value)) else t)
  {
    hide C.Run, C.Numbered, C.WellFormed;
    n := m;
    var t := d;
    if !d.started {
      var e := ResponseStart(chunk.id, chunk.model);
      Sent(d, m, e);
      t := Emit(d.(started := true), e);
      n := C.Apply(m, e).value;
    }
    if chunk.usage.Some? {
      var e := UsageReport(Some(DecodeUsage(chunk.usage.value)));
      Sent(t, n, e);
      n := C.Apply(n, e).value;
    }
  }

  // ---------------------------------------------------------------- closing

  function Upto(n: nat): seq<int> {
    if n == 0 then [] else Upto(n - 1) + [n - 1]
  }

  lemma SortedBetween(n: nat)
    ensures Sorting.Sorted(C.Between(0, n + 1)) == Sorting.Sorted(C.Between(0, n)) + [n]
  {
    hide C.Between, Sorting.Sorted;
    C.BetweenGrows(0, n);
    forall x | x in C.Between(0, n) ensures x < n {
      C.BetweenHas(0, n, x);
    }
    Sorting.SortedAppend(C.Between(0, n), n);
  }

  lemma {:induction false} SortedUpto(n: nat)
    ensures Sorting.Sorted(C.Between(0, n)) == Upto(n)
  {
    if n > 0 {
      hide Sorting.Sorted, C.Between;
      SortedUpto(n - 1);
      SortedBetween(n - 1);
    }
  }

  /** Closing the first `k` blocks completes their calls in order. */
  lemma {:induction false} CloseRuns(d: Decoder, m: C.Message, k: nat)
    requires C.Run(d.emitted) == Some(m) && m.Live() && C.Numbered(m.items, |m.calls|)
    requires Blocks(d, m) && m.done == [] && k <= d.nextBlock
    ensures var c := C.CountCalls(m.items[..k]);
            && c <= |m.calls|
            && C.Run(CloseAll(d, Upto(k)).emitted) ==
               Some(m.(open := C.Between(k, d.nextBlock), done := m.calls[..c]))
    ensures CloseAll(d, Upto(k)).openBlocks == C.Between(k, d.nextBlock)
    ensures CloseAll(d, Upto(k)) ==
            d.(openBlocks := CloseAll(d, Upto(k)).openBlocks, emitted := CloseAll(d, Upto(k)).emitted)
  {
    hide C.Run, C.Numbered;
    if k > 0 {
      CloseRuns(d, m, k - 1);
      CloseOne(d, m, k);
    } else {
      assert m.items[..0] == [] && m.calls[..0] == [];
    }
  }

  lemma CloseOne(d: Decoder, m: C.Message, k: nat)
    requires C.Run(d.emitted) == Some(m) && m.Live() && C.Numbered(m.items, |m.calls|)
    requires Blocks(d, m) && m.done == [] && 0 < k <= d.nextBlock
    requires C.CountCalls(m.items[..k - 1]) <= |m.calls|
    requires C.Run(CloseAll(d, Upto(k - 1)).emitted) ==
             Some(m.(open := C.Between(k - 1, d.nextBlock), done := m.calls[..C.CountCalls(m.items[..k - 1])]))
    requires CloseAll(d, Upto(k - 1)).openBlocks == C.Between(k - 1, d.nextBlock)
    ensures C.CountCalls(m.items[..k]) <= |m.calls|
    ensures C.Run(CloseAll(d, Upto(k)).emitted) ==
            Some(m.(open := C.Between(k, d.nextBlock), done := m.calls[..C.CountCalls(m.items[..k])]))
    ensures CloseAll(d, Upto(k)).openBlocks == C.Between(k, d.nextBlock)
    ensures var t := CloseAll(d, Upto(k - 1));
            CloseAll(d, Upto(k)) == Emit(t.(openBlocks := t.openBlocks - {k - 1}), ContentStop(k - 1))
  {
    hide C.Run, C.Numbered, C.Apply, C.CountCalls, C.Between;
    var t := CloseAll(d, Upto(k - 1));
    CloseStep(d, k);
    CallNumber(m.items, |m.calls|, k);
    C.BetweenDrops(k - 1, d.nextBlock);
    C.RunSnoc(t.emitted, ContentStop(k - 1));
    StopAt(m, d.nextBlock, k - 1, C.CountCalls(m.items[..k - 1]));
  }

  lemma CloseStep(d: Decoder, k: nat)
    requires k > 0
    ensures var t := CloseAll(d, Upto(k - 1));
            CloseAll(d, Upto(k)) == Emit(t.(openBlocks := t.openBlocks - {k - 1}), ContentStop(k - 1))
  {}

  /** Closing block `i` of a message whose blocks before it are closed. */
  lemma StopAt(m: C.Message, n: nat, i: nat, c: nat)
    requires m.Live() && i < n == |m.items| && m.blocks == P.Identity(n) && c <= |m.calls|
    requires m.items[i].CallItem? ==> m.items[i].call == c < |m.calls|
    ensures C.Apply(m.(open := C.Between(i, n), done := m.calls[..c]), ContentStop(i)) ==
            Some(m.(open := C.Between(i, n) - {i}, done := m.calls[..if m.items[i].CallItem? then c + 1 else c]))
  {
    P.IdentityAt(n, i);
    C.BetweenHas(i, n, i);
    if m.items[i].CallItem? {
      assert m.calls[..c] + [m.calls[c]] == m.calls[..c + 1];
    }
  }

  lemma {:induction false} UptoLength(n: nat)
    ensures |Upto(n)| == n
  {
    if n > 0 {
      UptoLength(n - 1);
    }
  }

  lemma CallNumber(items: seq<C.Item>, calls: nat, k: nat)
    requires C.Numbered(items, calls) && 0 < k <= |items|
    ensures C.CountCalls(items[..k]) == C.CountCalls(items[..k - 1]) + if items[k - 1].CallItem? then 1 else 0
    ensures C.CountCalls(items[..k]) <= calls
    ensures items[k - 1].CallItem? ==> items[k - 1].call == C.CountCalls(items[..k - 1]) < calls
  {
    assert items[..k][..k - 1] == items[..k - 1];
    C.NumberedPrefix(items, calls, k);
    CountGrows(items, k);
  }

  lemma {:induction false} CountGrows(items: seq<C.Item>, k: nat)
    requires k <= |items|
    ensures C.CountCalls(items[..k]) <= C.CountCalls(items)
  {
    if k < |items| {
      assert items[..|items| - 1][..k] == items[..k];
      CountGrows(items[..|items| - 1], k);
    } else {
      assert items[..k] == items;
    }
  }

  lemma AllClosed(d: Decoder, m: C.Message)
    requires C.Run(d.emitted) == Some(m) && m.Live() && C.Numbered(m.items, |m.calls|)
    requires Blocks(d, m) && m.done == []
    ensures var t := CloseAll(d, Sorting.Sorted(d.openBlocks));
            && C.Run(t.emitted) == Some(m.(open := {}, done := m.calls))
            && t == d.(openBlocks := {}, emitted := t.emitted)
  {
    hide C.Run, C.Numbered, CloseAll;
    SortedUpto(d.nextBlock);
    CloseRuns(d, m, d.nextBlock);
    C.NumberedPrefix(m.items, |m.calls|, |m.items|);
    assert m.items[..|m.items|] == m.items && m.calls[..|m.calls|] == m.calls;
  }

  lemma FinishHears(d: Decoder, m: C.Message, r: Reading) returns (n: C.Message)
    requires Hears(d, m, r) && r.stop.None?
    ensures Finish(d).ok <==> r.pending.Some? && r.pending != Some(Unknown)
    ensures Finish(d).ok && r.started ==> Hears(Finish(d).state, n, r.(stop := r.pending))
  {
    hide C.Run, C.Numbered, CloseAll, Sorting.Sorted, P.Identity, C.Between;
    n := m;
    if r.started && r.pending.Some? && r.pending != Some(Unknown) {
      var t := d.(done := true);
      AllClosed(t, m);
      var e := ResponseStop(r.pending.value, "");
      Sent(CloseAll(t, Sorting.Sorted(t.openBlocks)), m.(open := {}, done := m.calls), e);
      n := m.(open := {}, done := m.calls, stop := r.pending);
    }
  }

  // ---------------------------------------------------------------- whole streams

  predicate PendingSound(r: Reading) {
    r.pending != Some(Unknown) && (r.pending.Some? ==> r.started)
  }

  /** Nothing but empty data follows `[DONE]`. */
  predicate EndsAtDone(frames: seq<Frame>) {
    forall j, k :: 0 <= j < k < |frames| && frames[j].Done? ==> frames[k].Empty?
  }

  ghost predicate Agree(d: Outcome, m: C.Message, reading: Option<Reading>) {
    && (d.ok <==> reading.Some?)
    && (d.ok ==> Hears(d.state, m, reading.value) && PendingSound(reading.value))
  }

  lemma PendingKept(r: Reading, choices: seq<Choice>)
    requires PendingSound(r) && r.started && ReadChoices(r, choices).Some?
    ensures PendingSound(ReadChoices(r, choices).value) && ReadChoices(r, choices).value.started
    ensures ReadChoices(r, choices).value.stop == r.stop
  {
    if choices != [] {
      var b := ReadChoices(r, choices[..|choices| - 1]).value;
      PendingKept(r, choices[..|choices| - 1]);
      var c := choices[|choices| - 1];
      CallsKeep(if c.content.Some? then b.(text := b.text + c.content.value) else b, c.calls);
    }
  }

  lemma CallsKeep(r: Reading, calls: seq<ToolCallPart>)
    ensures ReadCalls(r, calls) == r.(calls := ReadCalls(r, calls).calls, slots := ReadCalls(r, calls).slots)
  {
  }

  lemma FrameHears(d: Decoder, m: C.Message, r: Reading, frame: Frame) returns (n: C.Message)
    requires Hears(d, m, r) && PendingSound(r) && (r.stop.Some? ==> frame.Empty?)
    ensures Agree(DecodeFrame(d, frame), n, ReadFrame(r, frame))
  {
    hide Hears, Finish, HearChoices, ReadChoices;
    n := m;
    match frame
    case Done => n := FinishHears(d, m, r);
    case Empty =>
    case Malformed =>
    case Data(chunk) =>
      n := BeginHears(d, m, r, chunk);
      var t := if r.started then r else r.(started := true, id := chunk.id, model := chunk.model);
      var u := if chunk.usage.Some? then t.(usage := DecodeUsage(chunk.usage.value)) else t;
      n := ChoicesHear(Begin(d, chunk), n, u, chunk.choices);
      if ReadChoices(u, chunk.choices).Some? {
        PendingKept(u, chunk.choices);
      }
  }

  /** For every stream with nothing after `[DONE]`: the decoder accepts it exactly when it can be
      read, and its events then mean what was read, calls completed in order included. */
  lemma {:induction false} DecoderHears(frames: seq<Frame>) returns (m: C.Message)
    requires EndsAtDone(frames)
    ensures Agree(DecodeFrames(frames), m, Read(frames))
  {
    hide Hears, DecodeFrame, ReadFrame;
    if frames == [] {
      m := C.EMPTY;
      HearsNothing();
    } else {
      var before, last := frames[..|frames| - 1], frames[|frames| - 1];
      m := DecoderHears(before);
      if Read(before).Some? {
        if Read(before).value.stop.Some? {
          var j := DoneSomewhere(before);
        }
        m := FrameHears(DecodeFrames(before).state, m, Read(before).value, last);
      }
    }
  }

  /** So the whole stream is accepted exactly when it can be read and, once begun, was done. */
  lemma {:induction false} AcceptedExactly(frames: seq<Frame>)
    requires EndsAtDone(frames)
    ensures Accepts(frames) <==> Read(frames).Some? && (Read(frames).value.started ==> Read(frames).value.stop.Some?)
  {
    var m := DecoderHears(frames);
  }

  lemma HearsNothing()
    ensures Hears(INITIAL, C.EMPTY, UNREAD)
  {
  }

  lemma {:induction false} DoneSomewhere(frames: seq<Frame>) returns (j: nat)
    requires Read(frames).Some? && Read(frames).value.stop.Some?
    ensures j < |frames| && frames[j].Done?
  {
    var before, last := frames[..|frames| - 1], frames[|frames| - 1];
    var b := Read(before).value;
    if b.stop.Some? {
      j := DoneSomewhere(before);
    } else {
      j := |frames| - 1;
      if last.Data? {
        var chunk := last.chunk;
        var t := if b.started then b else b.(started := true, id := chunk.id, model := chunk.model);
        StopKept(if chunk.usage.Some? then t.(usage := DecodeUsage(chunk.usage.value)) else t, chunk.choices);
      }
    }
  }

  lemma {:induction false} StopKept(r: Reading, choices: seq<Choice>)
    requires ReadChoices(r, choices).Some?
    ensures ReadChoices(r, choices).value.stop == r.stop
  {
    if choices != [] {
      var b, c := ReadChoices(r, choices[..|choices| - 1]).value, choices[|choices| - 1];
      StopKept(r, choices[..|choices| - 1]);
      CallsKeep(if c.content.Some? then b.(text := b.text + c.content.value) else b, c.calls);
    }
  }

  // ---------------------------------------------------------------- which events are emitted

  /** The only events the Chat decoder ever emits. */
  predicate Emittable(e: Event) {
    match e
    case ResponseStart(_, _) => true
    case ContentStart(_, block) => block == TextBlock("")
    case TextDelta(_, _) => true
    case ToolCallStart(_, block) => block.ToolCallBlock? && block.arguments == "{}"
    case ToolCallDelta(_, delta) => delta.Some?
    case ContentStop(_) => true
    case UsageReport(usage) => usage.Some? && usage.value.cacheWrite == 0
    case ResponseStop(reason, sequence) => reason != Unknown && sequence == ""
    case _ => false
  }

  ghost predicate AllEmittable(events: seq<Event>) {
    forall k :: 0 <= k < |events| ==> Emittable(events[k])
  }

  lemma CallEmits(d: Decoder, c: ToolCallPart)
    requires AllEmittable(d.emitted)
    ensures AllEmittable(HearCall(d, c).emitted)
  {
  }

  lemma {:induction false} CallsEmit(d: Decoder, calls: seq<ToolCallPart>)
    requires AllEmittable(d.emitted)
    ensures AllEmittable(HearCalls(d, calls).emitted)
  {
    hide HearCall;
    if calls != [] {
      CallsEmit(d, calls[..|calls| - 1]);
      CallEmits(HearCalls(d, calls[..|calls| - 1]), calls[|calls| - 1]);
    }
  }

  lemma ContentEmits(d: Decoder, content: string)
    requires AllEmittable(d.emitted)
    ensures AllEmittable(HearContent(d, content).emitted)
  {
  }

  lemma {:induction false} ChoicesEmit(d: Decoder, choices: seq<Choice>)
    requires AllEmittable(d.emitted)
    ensures AllEmittable(HearChoices(d, choices).state.emitted)
  {
    hide HearContent, HearCalls, AllEmittable;
    if choices != [] {
      var b, c := HearChoices(d, choices[..|choices| - 1]).state, choices[|choices| - 1];
      ChoicesEmit(d, choices[..|choices| - 1]);
      if c.content.Some? {
        ContentEmits(b, c.content.value);
      }
      CallsEmit(if c.content.Some? then HearContent(b, c.content.value) else b, c.calls);
    }
  }

  lemma {:induction false} ClosingEmits(d: Decoder, indexes: seq<int>)
    requires AllEmittable(d.emitted)
    ensures AllEmittable(CloseAll(d, indexes).emitted)
  {
    if indexes != [] {
      ClosingEmits(d, indexes[..|indexes| - 1]);
    }
  }

  lemma {:induction false} DecoderEmits(frames: seq<Frame>)
    ensures AllEmittable(DecodeFrames(frames).state.emitted)
  {
    hide HearChoices, CloseAll, Sorting.Sorted;
    if frames != [] {
      var d, last := DecodeFrames(frames[..|frames| - 1]).state, frames[|frames| - 1];
      DecoderEmits(frames[..|frames| - 1]);
      if last.Data? {
        ChoicesEmit(Begin(d, last.chunk), last.chunk.choices);
      } else if last.Done? {
        ClosingEmits(d.(done := true), Sorting.Sorted(d.openBlocks));
      }
    }
  }
}
