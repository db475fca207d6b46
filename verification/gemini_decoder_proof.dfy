/** The decoder emits a well-bracketed stream that means exactly what the chunks say. */
module GeminiDecoderProof {
  import opened Llm
  import opened Canonical
  import opened GeminiDecoder

  function DocOf(m: Message): Doc {
    Doc(m.items, m.calls)
  }

  function Identity(n: nat): map<int, nat> {
    if n == 0 then map[] else Identity(n - 1)[n - 1 := n - 1]
  }

  lemma {:induction false} IdentityAt(n: nat, i: int)
    ensures i in Identity(n) <==> 0 <= i < n
    ensures 0 <= i < n ==> Identity(n)[i] == i
  {
    if n > 0 {
      IdentityAt(n - 1, i);
    }
  }

  lemma IdentityGrows(n: nat)
    ensures Identity(n + 1) == Identity(n)[n := n] && n !in Identity(n)
  {
    IdentityAt(n, n);
  }

  ghost predicate Bracketed(s: State, m: Message) {
    && Run(s.emitted) == Some(m)
    && m.started == s.started && m.stop.Some? == s.stopped
    && |m.items| == s.nextBlock
    && m.blocks == Identity(s.nextBlock)
    && m.open == (if s.active.Idle? then {} else {s.active.index})
    && (!s.active.Idle? ==> s.active.index == s.nextBlock - 1)
    && (s.active.ActiveText? ==> m.items[s.active.index].TextItem?)
    && (s.active.ActiveReasoning? ==> m.items[s.active.index].ReasoningItem?)
    && (s.active.ActiveTool? ==>
          && m.items[s.active.index].CallItem? && |m.calls| > 0
          && m.calls[|m.calls| - 1] == Call(s.active.id, s.active.name, s.active.arguments))
    && (s.nextBlock > 0 && m.items[s.nextBlock - 1].CallItem? ==>
          |m.calls| > 0 && m.items[s.nextBlock - 1].call == |m.calls| - 1)
    && s.sawTool == (m.calls != [])
    && m.text == TextOf(m.items)
    && m.done == (if s.active.ActiveTool? then m.calls[..|m.calls| - 1] else m.calls)
    && (!s.started ==> s.nextBlock == 0 && !s.stopped)
  }

  /** Between parts a block is open as soon as there is one, until the stream stops. */
  ghost predicate Tracks(s: State, m: Message) {
    Bracketed(s, m) && (s.active.Idle? <==> s.stopped || s.nextBlock == 0)
  }

  ghost predicate SameHead(m: Message, n: Message) {
    m.started == n.started && m.id == n.id && m.model == n.model && m.usage == n.usage && m.stop == n.stop
  }

  lemma CloseBracketed(s: State, m: Message) returns (n: Message)
    requires Tracks(s, m) && s.started && !s.stopped
    ensures Bracketed(CloseActive(s), n) && SameHead(m, n) && DocOf(n) == DocOf(m)
    ensures CloseActive(s).active.Idle?
  {
    hide Run;
    if s.active.Idle? {
      n := m;
    } else {
      IdentityAt(s.nextBlock, s.active.index);
      var e := ContentStop(s.active.index);
      RunSnoc(s.emitted, e);
      n := Apply(m, e).value;
      if s.active.ActiveTool? {
        assert m.calls == m.calls[..|m.calls| - 1] + [m.calls[|m.calls| - 1]];
      }
    }
  }

  lemma EnsureTextTracks(s: State, m: Message) returns (n: Message)
    requires Tracks(s, m) && s.started && !s.stopped
    ensures Tracks(EnsureText(s), n) && SameHead(m, n) && DocOf(n) == AddText(DocOf(m), "")
    ensures EnsureText(s).active.ActiveText?
  {
    hide Run;
    if s.active.ActiveText? {
      n := m;
      assert m.items[s.active.index].text + "" == m.items[s.active.index].text;
      assert m.items[s.active.index := m.items[s.active.index]] == m.items;
    } else {
      var c := CloseBracketed(s, m);
      n := OpenTextTracks(CloseActive(s), c);
    }
  }

  lemma OpenTextTracks(s: State, m: Message) returns (n: Message)
    requires Bracketed(s, m) && s.started && !s.stopped && s.active.Idle?
    ensures Tracks(EnsureText(s), n) && SameHead(m, n)
    ensures DocOf(n) == Doc(m.items + [TextItem("")], m.calls)
  {
    hide Run, Identity, TextOf;
    IdentityGrows(s.nextBlock);
    var e := ContentStart(s.nextBlock, TextBlock(""));
    RunSnoc(s.emitted, e);
    n := Apply(m, e).value;
    TextOfSnoc(m.items, TextItem(""));
    assert TextOf(m.items) + "" == TextOf(m.items);
  }

  lemma EnsureReasoningTracks(s: State, m: Message) returns (n: Message)
    requires Tracks(s, m) && s.started && !s.stopped
    ensures Tracks(EnsureReasoning(s), n) && SameHead(m, n) && DocOf(n) == AddThinking(DocOf(m), "")
    ensures EnsureReasoning(s).active.ActiveReasoning?
  {
    hide Run;
    if s.active.ActiveReasoning? {
      n := m;
      assert m.items[s.active.index].thinking + "" == m.items[s.active.index].thinking;
      assert m.items[s.active.index := m.items[s.active.index]] == m.items;
    } else {
      var c := CloseBracketed(s, m);
      n := OpenReasoningTracks(CloseActive(s), c);
    }
  }

  lemma OpenReasoningTracks(s: State, m: Message) returns (n: Message)
    requires Bracketed(s, m) && s.started && !s.stopped && s.active.Idle?
    ensures Tracks(EnsureReasoning(s), n) && SameHead(m, n)
    ensures DocOf(n) == Doc(m.items + [ReasoningItem("")], m.calls)
  {
    hide Run, Identity, TextOf;
    IdentityGrows(s.nextBlock);
    var e := ContentStart(s.nextBlock, ReasoningBlock("", "", ""));
    RunSnoc(s.emitted, e);
    n := Apply(m, e).value;
    TextOfSnoc(m.items, ReasoningItem(""));
    assert TextOf(m.items) + "" == TextOf(m.items);
  }

  predicate Continues(doc: Doc, id: string, name: string) {
    doc.EndsInCall() && doc.LastCall().id == id && doc.LastCall().name == name
  }

  lemma OpenToolTracks(s: State, m: Message, id: string, name: string) returns (n: Message)
    requires Bracketed(s, m) && s.started && !s.stopped && s.active.Idle?
    ensures Tracks(EnsureTool(s, id, name), n) && SameHead(m, n)
    ensures DocOf(n) == Doc(m.items + [CallItem(|m.calls|)], m.calls + [Call(id, name, "")])
  {
    hide Run, Identity, TextOf, Apply;
    IdentityGrows(s.nextBlock);
    RunSnoc(s.emitted, ToolCallStart(s.nextBlock, ToolCallBlock(id, name, "{}")));
    n := CallBegun(m, s.nextBlock, id, name);
  }

  lemma CallBegun(m: Message, index: nat, id: string, name: string) returns (n: Message)
    requires m.Fresh(index) && m.text == TextOf(m.items)
    ensures Apply(m, ToolCallStart(index, ToolCallBlock(id, name, "{}"))) == Some(n)
    ensures n.items == m.items + [CallItem(|m.calls|)] && n.calls == m.calls + [Call(id, name, "")]
    ensures n.blocks == m.blocks[index := |m.items|] && n.open == m.open + {index}
    ensures n == m.(items := n.items, calls := n.calls, blocks := n.blocks, open := n.open)
    ensures n.text == TextOf(n.items) && n.calls[..|n.calls| - 1] == m.calls
  {
    hide TextOf;
    n := Apply(m, ToolCallStart(index, ToolCallBlock(id, name, "{}"))).value;
    TextOfSnoc(m.items, CallItem(|m.calls|));
    assert TextOf(m.items) + "" == TextOf(m.items);
  }

  lemma EnsureToolTracks(s: State, m: Message, id: string, name: string) returns (n: Message)
    requires Tracks(s, m) && s.started && !s.stopped
    ensures Tracks(EnsureTool(s, id, name), n) && SameHead(m, n)
    ensures EnsureTool(s, id, name).active.id == id && EnsureTool(s, id, name).active.name == name
    ensures DocOf(n) ==
            if Continues(DocOf(m), id, name) then DocOf(m)
            else Doc(m.items + [CallItem(|m.calls|)], m.calls + [Call(id, name, "")])
  {
    hide Run;
    if s.active.ActiveTool? && s.active.id == id && s.active.name == name {
      n := m;
    } else {
      var c := CloseBracketed(s, m);
      n := OpenToolTracks(CloseActive(s), c, id, name);
    }
  }

  /** Rewriting the last item rewrites the text read off the items. */
  lemma TextOfLast(items: seq<Item>, item: Item)
    requires |items| > 0
    ensures TextOf(items[|items| - 1 := item]) == TextOf(items[..|items| - 1]) + ItemText(item)
  {}

  lemma AppendTextTracks(s: State, m: Message, text: string) returns (n: Message)
    requires Tracks(s, m) && s.started && !s.stopped && s.active.ActiveText?
    ensures Tracks(Emit(s, TextDelta(s.active.index, text)), n)
    ensures SameHead(m, n) && DocOf(n) == AddText(DocOf(m), text)
  {
    hide Run;
    var k := s.active.index;
    IdentityAt(s.nextBlock, k);
    var e := TextDelta(k, text);
    RunSnoc(s.emitted, e);
    n := Apply(m, e).value;
    TextOfLast(m.items, TextItem(m.items[k].text + text));
    assert (TextOf(m.items[..k]) + m.items[k].text) + text == TextOf(m.items[..k]) + (m.items[k].text + text);
  }

  lemma AppendThinkingTracks(s: State, m: Message, thinking: string) returns (n: Message)
    requires Tracks(s, m) && s.started && !s.stopped && s.active.ActiveReasoning?
    ensures Tracks(Emit(s, ReasoningDelta(s.active.index, thinking)), n)
    ensures SameHead(m, n) && DocOf(n) == AddThinking(DocOf(m), thinking)
  {
    hide Run;
    var k := s.active.index;
    IdentityAt(s.nextBlock, k);
    var e := ReasoningDelta(k, thinking);
    RunSnoc(s.emitted, e);
    n := Apply(m, e).value;
    TextOfLast(m.items, ReasoningItem(m.items[k].thinking + thinking));
  }

  lemma AppendArgumentsTracks(s: State, m: Message, delta: ToolDelta) returns (n: Message)
    requires Tracks(s, m) && s.started && !s.stopped && s.active.ActiveTool?
    ensures Tracks(Emit(s.(active := s.active.(arguments := s.active.arguments + delta.arguments)),
                        ToolCallDelta(s.active.index, Some(delta))), n)
    ensures SameHead(m, n) && n.items == m.items
    ensures n.calls == m.calls[|m.calls| - 1 := Call(s.active.id, s.active.name, s.active.arguments + delta.arguments)]
  {
    hide Run;
    var k := s.active.index;
    IdentityAt(s.nextBlock, k);
    var e := ToolCallDelta(k, Some(delta));
    RunSnoc(s.emitted, e);
    n := Apply(m, e).value;
    assert n.calls[..|n.calls| - 1] == m.calls[..|m.calls| - 1];
  }

  lemma AddTextTwice(doc: Doc, text: string)
    ensures AddText(AddText(doc, ""), text) == AddText(doc, text)
  {
    var n := |doc.items|;
    assert "" + text == text;
    if n > 0 && doc.items[n - 1].TextItem? {
      assert doc.items[n - 1].text + "" == doc.items[n - 1].text;
    } else {
      assert (doc.items + [TextItem("")])[n := TextItem(text)] == doc.items + [TextItem(text)];
    }
  }

  lemma AddThinkingTwice(doc: Doc, thinking: string)
    ensures AddThinking(AddThinking(doc, ""), thinking) == AddThinking(doc, thinking)
  {
    var n := |doc.items|;
    assert "" + thinking == thinking;
    if n > 0 && doc.items[n - 1].ReasoningItem? {
      assert doc.items[n - 1].thinking + "" == doc.items[n - 1].thinking;
    } else {
      assert (doc.items + [ReasoningItem("")])[n := ReasoningItem(thinking)] == doc.items + [ReasoningItem(thinking)];
    }
  }

  /** The document once the decoder has made sure the right call is open. */
  function Opened(doc: Doc, id: string, name: string): (r: Doc)
    ensures Continues(r, id, name)
  {
    if Continues(doc, id, name) then doc
    else Doc(doc.items + [CallItem(|doc.calls|)], doc.calls + [Call(id, name, "")])
  }

  /** What `ExtendCall` does to the document whose last call is open. */
  function Extend(json: Json, doc: Doc, args: string): Option<Doc>
    requires doc.EndsInCall()
  {
    if json.isObject(args) && IsPrefix(doc.LastCall().arguments, json.compact(args)) then
      Some(doc.(calls := doc.calls[|doc.calls| - 1 := doc.LastCall().(arguments := json.compact(args))]))
    else None
  }

  lemma ExtendOpened(json: Json, doc: Doc, call: FunctionCall)
    ensures AddCall(json, doc, call) ==
            Extend(json, Opened(doc, NameCall(doc, call), call.name), OrEmptyObject(call.args))
  {
    var id, printed := NameCall(doc, call), json.compact(OrEmptyObject(call.args));
    if !Continues(doc, id, call.name) {
      assert (doc.calls + [Call(id, call.name, "")])[|doc.calls| := Call(id, call.name, printed)]
          == doc.calls + [Call(id, call.name, printed)];
    }
  }

  lemma ExtendTracks(json: Json, s: State, m: Message, args: string) returns (n: Message)
    requires Tracks(s, m) && s.started && !s.stopped && s.active.ActiveTool? && DocOf(m).EndsInCall()
    ensures ExtendCall(json, s, args).ok == Extend(json, DocOf(m), args).Some?
    ensures ExtendCall(json, s, args).ok ==>
              && Tracks(ExtendCall(json, s, args).state, n) && SameHead(m, n)
              && Some(DocOf(n)) == Extend(json, DocOf(m), args)
  {
    hide Run, Apply, TextOf;
    n := m;
    var printed, previous := json.compact(args), s.active.arguments;
    if printed == previous {
      assert m.calls[|m.calls| - 1 := DocOf(m).LastCall()] == m.calls;
    } else if IsPrefix(previous, printed) {
      assert previous + printed[|previous|..] == printed;
      n := AppendArgumentsTracks(s, m, ToolDelta(s.active.id, s.active.name, printed[|previous|..]));
    }
  }

  lemma CallTracks(json: Json, s: State, m: Message, call: FunctionCall) returns (n: Message)
    requires Tracks(s, m) && s.started && !s.stopped
    ensures DecodeCall(json, s, call).ok == AddCall(json, DocOf(m), call).Some?
    ensures DecodeCall(json, s, call).ok ==>
              && Tracks(DecodeCall(json, s, call).state, n) && SameHead(m, n)
              && Some(DocOf(n)) == AddCall(json, DocOf(m), call)
  {
    hide Run, Apply, TextOf;
    var id := CallID(s, call);
    assert id == NameCall(DocOf(m), call);
    var c := EnsureToolTracks(s, m, id, call.name);
    ExtendOpened(json, DocOf(m), call);
    n := ExtendTracks(json, EnsureTool(s, id, call.name), c, OrEmptyObject(call.args));
  }

  /** One part: accepted exactly when the reading accepts it, and meaning the same. */
  lemma PartTracks(json: Json, s: State, m: Message, p: Part) returns (n: Message)
    requires Tracks(s, m) && s.started && !s.stopped
    ensures DecodePart(json, s, p).ok == AddPart(json, DocOf(m), p).Some?
    ensures DecodePart(json, s, p).ok ==>
              && Tracks(DecodePart(json, s, p).state, n) && SameHead(m, n)
              && Some(DocOf(n)) == AddPart(json, DocOf(m), p)
              && DecodePart(json, s, p).state.started && !DecodePart(json, s, p).state.stopped
  {
    hide Run, Apply, TextOf;
    n := m;
    if Silent(p) {
    } else if p.thought {
      var c := EnsureReasoningTracks(s, m);
      n := AppendThinkingTracks(EnsureReasoning(s), c, p.text.value);
      AddThinkingTwice(DocOf(m), p.text.value);
    } else if p.text.Some? {
      n := EnsureTextTracks(s, m);
      if p.text.value != "" {
        n := AppendTextTracks(EnsureText(s), n, p.text.value);
        AddTextTwice(DocOf(m), p.text.value);
      }
    } else if p.call.Some? {
      n := CallTracks(json, s, m, p.call.value);
    }
  }

  lemma {:induction false} PartsTrack(json: Json, s: State, m: Message, parts: seq<Part>) returns (n: Message)
    requires Tracks(s, m) && s.started && !s.stopped
    ensures DecodeParts(json, s, parts).ok == AddParts(json, DocOf(m), parts).Some?
    ensures DecodeParts(json, s, parts).ok ==>
              && Tracks(DecodeParts(json, s, parts).state, n) && SameHead(m, n)
              && Some(DocOf(n)) == AddParts(json, DocOf(m), parts)
              && DecodeParts(json, s, parts).state.started && !DecodeParts(json, s, parts).state.stopped
  {
    hide Run, Apply, TextOf;
    n := m;
    if parts != [] {
      var before := parts[..|parts| - 1];
      var c := PartsTrack(json, s, m, before);
      if DecodeParts(json, s, before).ok {
        n := PartTracks(json, DecodeParts(json, s, before).state, c, parts[|parts| - 1]);
      }
    }
  }

  /** The message says what the reading says. */
  ghost predicate Means(m: Message, r: Reading) {
    && m.started == r.started && m.id == r.id && m.model == r.model && m.usage == r.usage && m.stop == r.stop
    && DocOf(m) == r.doc
  }

  lemma BeginTracks(s: State, m: Message, chunk: Chunk, r: Reading) returns (n: Message)
    requires Tracks(s, m) && Means(m, r)
    ensures Tracks(Begin(s, chunk), n) && Begin(s, chunk).started && Begin(s, chunk).stopped == s.stopped
    ensures Begin(s, chunk).nextBlock == s.nextBlock
    ensures var t := if r.started then r else r.(started := true, id := chunk.responseID, model := chunk.model);
            Means(n, if chunk.usage.Some? then t.(usage := Counts(chunk.usage.value)) else t)
  {
    hide Run;
    n := m;
    var t := s;
    if !s.started {
      var e := ResponseStart(chunk.responseID, chunk.model);
      RunSnoc(s.emitted, e);
      t := Emit(s.(started := true), e);
      n := Apply(m, e).value;
    }
    if chunk.usage.Some? {
      var e := UsageReport(Some(Counts(chunk.usage.value)));
      RunSnoc(t.emitted, e);
      n := Apply(n, e).value;
    }
  }

  lemma FinishTracks(s: State, m: Message, finishReason: string) returns (n: Message)
    requires Tracks(s, m) && s.started && !s.stopped && finishReason != ""
    ensures DecodeFinish(s, finishReason).ok == (FinishReason(finishReason) != Unknown)
    ensures DecodeFinish(s, finishReason).ok ==>
              && Tracks(DecodeFinish(s, finishReason).state, n)
              && n.stop == Some(if m.calls != [] && FinishReason(finishReason) == EndTurn then ToolUse
                                else FinishReason(finishReason))
              && SameHead(m, n.(stop := None)) && DocOf(n) == DocOf(m)
  {
    hide Run;
    n := CloseBracketed(s, m);
    var plain := FinishReason(finishReason);
    if plain != Unknown {
      var e := ResponseStop(if s.sawTool && plain == EndTurn then ToolUse else plain, "");
      RunSnoc(CloseActive(s).emitted, e);
      n := Apply(n, e).value;
    }
  }

  // ---------------------------------------------------------------- after the stop

  /** The only events this decoder ever emits. */
  predicate Emittable(e: Event) {
    match e
    case ResponseStart(_, _) => true
    case ContentStart(_, block) => block == TextBlock("") || block == ReasoningBlock("", "", "")
    case TextDelta(_, text) => text != ""
    case ReasoningDelta(_, thinking) => thinking != ""
    case ToolCallStart(_, block) => block.ToolCallBlock? && block.arguments == "{}"
    case ToolCallDelta(_, delta) => delta.Some? && delta.value.arguments != ""
    case ContentStop(_) => true
    case UsageReport(usage) => usage.Some? && usage.value.cacheWrite == 0
    case ResponseStop(reason, sequence) => reason != Unknown && sequence == ""
    case _ => false
  }

  ghost predicate AllEmittable(events: seq<Event>) {
    forall k :: 0 <= k < |events| ==> Emittable(events[k])
  }

  /** From `s` to `t` events were only added, and only of those kinds. */
  ghost predicate Grew(s: State, t: State) {
    s.emitted <= t.emitted && AllEmittable(t.emitted[|s.emitted|..])
  }

  lemma EmitGrew(s: State, t: State, e: Event)
    requires Grew(s, t) && Emittable(e)
    ensures Grew(s, t.(emitted := t.emitted + [e]))
  {}

  lemma Grown(s: State, t: State, u: State)
    requires Grew(s, t) && Grew(t, u)
    ensures Grew(s, u)
  {}

  lemma OpenGrew(s: State, e: Event)
    requires Emittable(e)
    ensures Grew(s, CloseActive(s).(emitted := CloseActive(s).emitted + [e]))
  {}

  lemma CallGrew(json: Json, s: State, call: FunctionCall)
    ensures Grew(s, DecodeCall(json, s, call).state)
  {
    var id := CallID(s, call);
    OpenGrew(s, ToolCallStart(s.nextBlock, ToolCallBlock(id, call.name, "{}")));
    var t := EnsureTool(s, id, call.name);
    assert Grew(s, t);
    var printed := json.compact(OrEmptyObject(call.args));
    if IsPrefix(t.active.arguments, printed) && printed != t.active.arguments {
      EmitGrew(s, t, ToolCallDelta(t.active.index, Some(ToolDelta(id, call.name, printed[|t.active.arguments|..]))));
    }
  }

  lemma PartGrew(json: Json, s: State, p: Part)
    ensures Grew(s, DecodePart(json, s, p).state)
  {
    if Silent(p) {
    } else if p.thought {
      OpenGrew(s, ContentStart(s.nextBlock, ReasoningBlock("", "", "")));
      var t := EnsureReasoning(s);
      EmitGrew(s, t, ReasoningDelta(t.active.index, p.text.value));
    } else if p.text.Some? {
      OpenGrew(s, ContentStart(s.nextBlock, TextBlock("")));
      var t := EnsureText(s);
      if p.text.value != "" {
        EmitGrew(s, t, TextDelta(t.active.index, p.text.value));
      }
    } else if p.call.Some? {
      CallGrew(json, s, p.call.value);
    }
  }

  lemma {:induction false} PartsGrew(json: Json, s: State, parts: seq<Part>)
    ensures Grew(s, DecodeParts(json, s, parts).state)
  {
    if parts != [] {
      var b := DecodeParts(json, s, parts[..|parts| - 1]);
      PartsGrew(json, s, parts[..|parts| - 1]);
      if b.ok {
        PartGrew(json, b.state, parts[|parts| - 1]);
        Grown(s, b.state, DecodeParts(json, s, parts).state);
      }
    }
  }

  lemma FinishGrew(s: State, finishReason: string)
    ensures Grew(s, DecodeFinish(s, finishReason).state)
  {}

  lemma BeginGrew(s: State, chunk: Chunk)
    ensures Grew(s, Begin(s, chunk))
  {}

  lemma FrameGrew(json: Json, s: State, frame: Frame)
    ensures Grew(s, DecodeFrame(json, s, frame).state)
  {
    if frame.Data? {
      var t := Begin(s, frame.chunk);
      BeginGrew(s, frame.chunk);
      if |frame.chunk.candidates| == 1 {
        var c := frame.chunk.candidates[0];
        var r := DecodeParts(json, t, c.parts);
        PartsGrew(json, t, c.parts);
        Grown(s, t, r.state);
        if r.ok {
          FinishGrew(r.state, c.finishReason);
          Grown(s, r.state, DecodeFinish(r.state, c.finishReason).state);
        }
      }
    }
  }

  lemma {:induction false} DecoderEmits(json: Json, frames: seq<Frame>)
    ensures AllEmittable(DecodeFrames(json, frames).state.emitted)
  {
    if frames != [] {
      var b := DecodeFrames(json, frames[..|frames| - 1]);
      DecoderEmits(json, frames[..|frames| - 1]);
      FrameGrew(json, b.state, frames[|frames| - 1]);
      Grown(INITIAL, b.state, DecodeFrame(json, b.state, frames[|frames| - 1]).state);
    }
  }

  /** Something other than a usage report follows the stop. */
  ghost predicate Trespasses(events: seq<Event>) {
    exists k :: 0 <= k < |events| && TrespassAt(events, k)
  }

  ghost predicate TrespassAt(events: seq<Event>, k: nat)
    requires k < |events|
  {
    && Run(events[..k]).Some? && Run(events[..k]).value.stop.Some?
    && !events[k].UsageReport? && !events[k].ResponseStart?
  }

  lemma TrespassStays(before: seq<Event>, after: seq<Event>)
    requires before <= after && Trespasses(before)
    ensures Trespasses(after)
  {
    var k :| 0 <= k < |before| && TrespassAt(before, k);
    assert before[..k] == after[..k];
    assert TrespassAt(after, k);
  }

  lemma TrespassRejected(events: seq<Event>)
    requires Trespasses(events)
    ensures Run(events).None?
  {
    var k :| 0 <= k < |events| && TrespassAt(events, k);
    RunSnoc(events[..k], events[k]);
    if Run(events).Some? {
      assert events[..k] + [events[k]] == events[..k + 1];
      assert events == events[..k + 1] + events[k + 1..];
      RunPrefix(events[..k + 1], events[k + 1..]);
    }
  }

  lemma NothingAfterStop(s: State, m: Message, e: Event, after: seq<Event>)
    requires Run(s.emitted) == Some(m) && m.stop.Some? && !e.UsageReport? && !e.ResponseStart?
    requires s.emitted + [e] <= after
    ensures Trespasses(after)
  {
    hide Run;
    assert after[..|s.emitted|] == s.emitted && after[|s.emitted|] == e;
    assert TrespassAt(after, |s.emitted|);
  }

  lemma StoppedPart(json: Json, s: State, m: Message, p: Part)
    requires Tracks(s, m) && s.stopped
    ensures Silent(p) ==> DecodePart(json, s, p) == Outcome(true, s)
    ensures !Silent(p) && DecodePart(json, s, p).ok ==> Trespasses(DecodePart(json, s, p).state.emitted)
  {
    var r := DecodePart(json, s, p);
    if !Silent(p) && r.ok {
      var e :=
        if p.thought then ContentStart(s.nextBlock, ReasoningBlock("", "", ""))
        else if p.text.Some? then ContentStart(s.nextBlock, TextBlock(""))
        else ToolCallStart(s.nextBlock, ToolCallBlock(CallID(s, p.call.value), p.call.value.name, "{}"));
      NothingAfterStop(s, m, e, r.state.emitted);
    }
  }

  lemma {:induction false} StoppedParts(json: Json, s: State, m: Message, parts: seq<Part>)
    requires Tracks(s, m) && s.stopped
    ensures AllSilent(parts) ==> DecodeParts(json, s, parts) == Outcome(true, s)
    ensures !AllSilent(parts) && DecodeParts(json, s, parts).ok ==>
              Trespasses(DecodeParts(json, s, parts).state.emitted)
  {
    hide Run;
    if parts != [] {
      var before, last := parts[..|parts| - 1], parts[|parts| - 1];
      StoppedParts(json, s, m, before);
      if AllSilent(before) {
        StoppedPart(json, s, m, last);
      } else if DecodeParts(json, s, parts).ok {
        var b := DecodeParts(json, s, before).state;
        PartGrew(json, b, last);
        TrespassStays(b.emitted, DecodeParts(json, s, parts).state.emitted);
      }
    }
  }

  // ---------------------------------------------------------------- which parts are refused

  /** In every state: a thought is taken, text or none; a text is; a call is if its arguments are an object that
      continues what was sent of it; of the rest only a bare signature is, and says nothing. */
  lemma PartsRefused(json: Json, s: State, p: Part)
    ensures p.thought ==> DecodePart(json, s, p).ok
    ensures p.thought && (p.text.None? || p.text.value == "") ==> DecodePart(json, s, p).state == s
    ensures !p.thought && p.text.Some? && p.text.value != "" ==> DecodePart(json, s, p).ok
    ensures !p.thought && p.text == Some("") ==>
              && DecodePart(json, s, p).ok
              && (p.signature != "" && p.call.None? && !p.media ==> DecodePart(json, s, p).state == s)
              && (p.signature == "" || p.call.Some? || p.media ==> DecodePart(json, s, p).state.active.ActiveText?)
    ensures !p.thought && p.text.None? && p.call.None? ==>
              && (DecodePart(json, s, p).ok <==> p.signature != "" && !p.media) && DecodePart(json, s, p).state == s
    ensures !p.thought && p.text.None? && p.call.Some? && DecodePart(json, s, p).ok ==>
              json.isObject(OrEmptyObject(p.call.value.args)) && DecodePart(json, s, p).state.active.ActiveTool?
  {
  }

  // ---------------------------------------------------------------- whole streams

  /** What a decoding outcome and a reading have in common. */
  ghost predicate Agree(r: Outcome, reading: Option<Reading>) {
    && (reading.None? && r.ok ==> Trespasses(r.state.emitted))
    && (reading.Some? ==>
          && r.ok && Run(r.state.emitted).Some?
          && Tracks(r.state, Run(r.state.emitted).value)
          && Means(Run(r.state.emitted).value, reading.value))
  }

  lemma CandidateAgrees(json: Json, s: State, m: Message, r: Reading, c: Candidate)
    requires Tracks(s, m) && Means(m, r) && s.started
    ensures var d := DecodeParts(json, s, c.parts);
            Agree(if d.ok then DecodeFinish(d.state, c.finishReason) else d, ReadCandidate(json, r, c))
  {
    hide Run, Apply, TextOf;
    var d := DecodeParts(json, s, c.parts);
    if s.stopped {
      StoppedParts(json, s, m, c.parts);
      if d.ok && c.finishReason != "" && DecodeFinish(d.state, c.finishReason).ok {
        var f := DecodeFinish(d.state, c.finishReason).state.emitted;
        if AllSilent(c.parts) {
          NothingAfterStop(s, m, f[|f| - 1], f);
        } else {
          TrespassStays(d.state.emitted, f);
        }
      }
    } else {
      var n := PartsTrack(json, s, m, c.parts);
      if d.ok && c.finishReason != "" {
        n := FinishTracks(d.state, n, c.finishReason);
      }
    }
  }

  lemma FrameAgrees(json: Json, s: State, m: Message, r: Reading, frame: Frame)
    requires Tracks(s, m) && Means(m, r)
    ensures Agree(DecodeFrame(json, s, frame), ReadFrame(json, r, frame))
  {
    hide Run, Apply, TextOf;
    if frame.Data? {
      var n := BeginTracks(s, m, frame.chunk, r);
      if |frame.chunk.candidates| == 1 {
        var t := if r.started then r else r.(started := true, id := frame.chunk.responseID, model := frame.chunk.model);
        var u := if frame.chunk.usage.Some? then t.(usage := Counts(frame.chunk.usage.value)) else t;
        CandidateAgrees(json, Begin(s, frame.chunk), n, u, frame.chunk.candidates[0]);
      }
    }
  }

  /** For every stream: if the chunks can be read, the decoder accepts them and its events mean what
      was read; if they cannot, it fails or lets content follow the stop, which is not well-bracketed. */
  lemma {:induction false} DecoderMeansReading(json: Json, frames: seq<Frame>)
    ensures Agree(DecodeFrames(json, frames), Read(json, frames))
  {
    if frames != [] {
      var before, last := frames[..|frames| - 1], frames[|frames| - 1];
      DecoderMeansReading(json, before);
      var b := DecodeFrames(json, before);
      if b.ok {
        if Read(json, before).Some? {
          FrameAgrees(json, b.state, Run(b.state.emitted).value, Read(json, before).value, last);
        } else {
          FrameGrew(json, b.state, last);
          TrespassStays(b.state.emitted, DecodeFrame(json, b.state, last).state.emitted);
        }
      }
    }
  }
}
