/** Canonical events written as streaming generateContent chunks, and what those chunks say. */
module GeminiEncoder {
  import opened Llm
  import C = Canonical
  import G = GeminiDecoder

  /** A tool block whose arguments are still being collected. */
  datatype OpenCall = OpenCall(id: string, name: string, arguments: string)

  datatype State = State(
    responseID: string, model: string, started: bool, stopped: bool, usage: Usage,
    tools: map<int, OpenCall>, written: seq<G.Frame>)

  const INITIAL := State("", "", false, false, NO_USAGE, map[], [])

  datatype Outcome = Outcome(ok: bool, state: State)

  function EncodeFinish(reason: StopReason): Option<string> {
    match reason
    case EndTurn => Some("STOP")
    case StopSequence => Some("STOP")
    case ToolUse => Some("STOP")
    case MaxTokens => Some("MAX_TOKENS")
    case ContentFilter => Some("SAFETY")
    case Unknown => None
  }

  function WriteChunk(s: State, parts: seq<G.Part>, finish: string, usage: Option<G.UsageMetadata>): State {
    s.(written := s.written + [G.Data(G.Chunk(s.responseID, s.model, usage, [G.Candidate(parts, finish)]))])
  }

  function TextPart(text: string): G.Part {
    G.Part(false, Some(text), "", None, false)
  }

  function CallPart(c: OpenCall): G.Part {
    G.Part(false, None, "", Some(G.FunctionCall(c.id, c.name, OrEmptyObject(c.arguments))), false)
  }

  function Encode(json: Json, s: State, e: Event): Outcome {
    match e
    case ResponseStart(id, model) =>
      if s.started then Outcome(false, s) else Outcome(true, s.(started := true, responseID := id, model := model))
    case ContentStart(_, _) => Outcome(true, s)
    case TextDelta(_, text) => Outcome(true, WriteChunk(s, [TextPart(text)], "", None))
    case ToolCallStart(index, block) =>
      if !block.ToolCallBlock? then Outcome(false, s)
      else Outcome(true, s.(tools := s.tools[index := OpenCall(block.id, block.name, "")]))
    case ToolCallDelta(index, delta) =>
      if index !in s.tools || delta.None? then Outcome(false, s)
      else
        var c := s.tools[index];
        Outcome(true, s.(tools := s.tools[index := c.(arguments := c.arguments + delta.value.arguments)]))
    case ContentStop(index) =>
      if index !in s.tools then Outcome(true, s)
      else
        var c, t := s.tools[index], s.(tools := s.tools - {index});
        if !json.isObject(OrEmptyObject(c.arguments)) then Outcome(false, t)
        else Outcome(true, WriteChunk(t, [CallPart(c)], "", None))
    case UsageReport(usage) => Outcome(true, if usage.Some? then s.(usage := usage.value) else s)
    case ResponseStop(reason, _) =>
      if s.tools != map[] || EncodeFinish(reason).None? then Outcome(false, s)
      else
        var u := G.UsageMetadata(s.usage.input, s.usage.output, s.usage.cacheRead, s.usage.reasoning);
        Outcome(true, WriteChunk(s.(stopped := true), [], EncodeFinish(reason).value, Some(u)))
    case _ => Outcome(false, s)
  }

  function EncodeAll(json: Json, events: seq<Event>): Outcome {
    if events == [] then Outcome(true, INITIAL)
    else
      var r := EncodeAll(json, events[..|events| - 1]);
      if r.ok then Encode(json, r.state, events[|events| - 1]) else r
  }

  class StreamEncoder {
    const json: Json
    var responseID: string
    var model: string
    var started: bool
    var stopped: bool
    var latestUsage: Usage
    var tools: map<int, OpenCall>
    var written: seq<G.Frame>

    constructor (json: Json)
      ensures this.json == json && Abs() == INITIAL
    {
      this.json := json;
      responseID, model, started, stopped, latestUsage, tools, written := "", "", false, false, NO_USAGE, map[], [];
    }

    function Abs(): State
      reads this
    {
      State(responseID, model, started, stopped, latestUsage, tools, written)
    }

    method Send(parts: seq<G.Part>, finish: string, usage: Option<G.UsageMetadata>)
      modifies this`written
      ensures Abs() == WriteChunk(old(Abs()), parts, finish, usage)
    {
      written := written + [G.Data(G.Chunk(responseID, model, usage, [G.Candidate(parts, finish)]))];
    }

    method EncodeEvent(e: Event) returns (ok: bool)
      modifies this
      ensures Outcome(ok, Abs()) == Encode(json, old(Abs()), e)
    {
      ok := true;
      match e
      case ResponseStart(id, m) =>
        if started { return false; }
        started := true;
        responseID := id;
        model := m;
      case ContentStart(_, _) =>
      case TextDelta(_, text) => Send([TextPart(text)], "", None);
      case ToolCallStart(index, block) =>
        if !block.ToolCallBlock? { return false; }
        tools := tools[index := OpenCall(block.id, block.name, "")];
      case ToolCallDelta(index, delta) =>
        if index !in tools || delta.None? { return false; }
        var call := tools[index];
        tools := tools[index := call.(arguments := call.arguments + delta.value.arguments)];
      case ContentStop(index) =>
        if index !in tools { return true; }
        var call := tools[index];
        tools := tools - {index};
        var arguments := call.arguments;
        if arguments == "" {
          arguments := "{}";
        }
        if !json.isObject(arguments) { return false; }
        Send([G.Part(false, None, "", Some(G.FunctionCall(call.id, call.name, arguments)), false)], "", None);
      case UsageReport(usage) =>
        if usage.Some? {
          latestUsage := usage.value;
        }
      case ResponseStop(reason, _) =>
        if tools != map[] { return false; }
        var finish := EncodeFinish(reason);
        if finish.None? { return false; }
        stopped := true;
        Send([], finish.value, Some(G.UsageMetadata(latestUsage.input, latestUsage.output, latestUsage.cacheRead,
                                                    latestUsage.reasoning)));
      case _ => ok := false;
    }
  }

  // ---------------------------------------------------------------- what the chunks say

  /** What a Gemini chunk can carry of an event: no reasoning, and no text in a block start. */
  predicate Expressible(e: Event) {
    && (e.ContentStart? ==> e.block == TextBlock(""))
    && !e.ReasoningDelta?
    && (e.ResponseStop? ==> e.reason != Unknown)
  }

  /** A reader can only tell calls apart by their ids. */
  ghost predicate Distinct(calls: seq<C.Call>) {
    && (forall k :: 0 <= k < |calls| ==> calls[k].id != "")
    && (forall j, k :: 0 <= j < k < |calls| ==> calls[j].id != calls[k].id)
  }

  /** The calls with their arguments as a JSON printer leaves them. */
  function Printed(json: Json, calls: seq<C.Call>): seq<C.Call> {
    if calls == [] then []
    else
      var last := calls[|calls| - 1];
      Printed(json, calls[..|calls| - 1]) + [last.(arguments := json.compact(OrEmptyObject(last.arguments)))]
  }

  lemma {:induction false} PrintedLength(json: Json, calls: seq<C.Call>)
    ensures |Printed(json, calls)| == |calls|
    ensures forall k :: 0 <= k < |calls| ==> Printed(json, calls)[k].id == calls[k].id
  {
    if calls != [] {
      PrintedLength(json, calls[..|calls| - 1]);
    }
  }

  /** `STOP` stands for three reasons; a reader takes it for tool use when there were calls. */
  function GeminiStop(reason: StopReason, calls: seq<C.Call>): StopReason {
    if reason == MaxTokens || reason == ContentFilter then reason else if calls != [] then ToolUse else EndTurn
  }

  ghost predicate OpenTools(s: State, m: C.Message) {
    && C.WellFormed(m)
    && (forall i :: i in s.tools <==> i in m.open && m.items[m.blocks[i]].CallItem?)
    && (forall i :: i in s.tools ==>
          var c := m.calls[m.items[m.blocks[i]].call]; s.tools[i] == OpenCall(c.id, c.name, c.arguments))
  }

  ghost predicate SameHead(s: State, m: C.Message) {
    && s.started == m.started && (m.started ==> s.responseID == m.id && s.model == m.model) && s.usage == m.usage
  }

  ghost predicate Says(json: Json, s: State, m: C.Message, r: G.Reading) {
    && G.Read(json, s.written) == Some(r)
    && (r.started ==> r.id == m.id && r.model == m.model)
    && (r.started <==> s.written != []) && (s.written != [] ==> m.started)
    && C.TextOf(r.doc.items) == m.text
    && r.doc.calls == Printed(json, m.done)
    && (m.stop.None? ==> r.stop.None?)
    && (m.stop.Some? ==> r.started && r.stop == Some(GeminiStop(m.stop.value, m.done)))
  }

  ghost predicate Tells(json: Json, s: State, m: C.Message, r: G.Reading) {
    SameHead(s, m) && OpenTools(s, m) && Says(json, s, m, r)
  }

  lemma ReadChunk(json: Json, s: State, parts: seq<G.Part>, finish: string, usage: Option<G.UsageMetadata>, r: G.Reading)
    requires G.Read(json, s.written) == Some(r)
    ensures var t := if r.started then r else r.(started := true, id := s.responseID, model := s.model);
            G.Read(json, WriteChunk(s, parts, finish, usage).written) ==
            G.ReadCandidate(json, if usage.Some? then t.(usage := G.Counts(usage.value)) else t, G.Candidate(parts, finish))
  {}

  lemma AddOnePart(json: Json, doc: G.Doc, p: G.Part)
    ensures G.AddParts(json, doc, [p]) == G.AddPart(json, doc, p)
  {}

  lemma AddTextSays(doc: G.Doc, text: string)
    ensures C.TextOf(G.AddText(doc, text).items) == C.TextOf(doc.items) + text
    ensures G.AddText(doc, text).calls == doc.calls
  {}

  lemma TellText(json: Json, s: State, m: C.Message, r: G.Reading, index: int, text: string) returns (t: G.Reading)
    requires Tells(json, s, m, r) && m.OpenText(index)
    ensures Tells(json, Encode(json, s, TextDelta(index, text)).state, C.Apply(m, TextDelta(index, text)).value, t)
  {
    hide G.Read, C.TextOf, Printed;
    C.ApplyWellFormed(m, TextDelta(index, text));
    ReadChunk(json, s, [TextPart(text)], "", None, r);
    AddOnePart(json, r.doc, TextPart(text));
    AddTextSays(r.doc, text);
    var b := if r.started then r else r.(started := true, id := s.responseID, model := s.model);
    t := b.(doc := G.AddText(r.doc, text));
  }

  /** A call that cannot be mistaken for the one before it is read as a call of its own. */
  lemma AddCallSays(json: Json, doc: G.Doc, c: OpenCall, done: seq<C.Call>)
    requires c.id != "" && json.isObject(OrEmptyObject(c.arguments))
    requires doc.calls == Printed(json, done) && (done != [] ==> done[|done| - 1].id != c.id)
    ensures var call := C.Call(c.id, c.name, c.arguments);
            G.AddPart(json, doc, CallPart(c)) ==
            Some(G.Doc(doc.items + [C.CallItem(|doc.calls|)], Printed(json, done + [call])))
  {}

  lemma TellCall(json: Json, s: State, m: C.Message, r: G.Reading, index: int) returns (t: G.Reading)
    requires Tells(json, s, m, r) && m.OpenCall(index)
    requires Distinct(C.Apply(m, ContentStop(index)).value.done)
    ensures var c := m.calls[m.items[m.blocks[index]].call];
            Encode(json, s, ContentStop(index)).ok <==> json.isObject(OrEmptyObject(c.arguments))
    ensures Encode(json, s, ContentStop(index)).ok ==>
              Tells(json, Encode(json, s, ContentStop(index)).state, C.Apply(m, ContentStop(index)).value, t)
  {
    hide G.Read, C.TextOf, Printed;
    var n := C.Apply(m, ContentStop(index)).value;
    C.ApplyWellFormed(m, ContentStop(index));
    t := r;
    var c := s.tools[index];
    if json.isObject(OrEmptyObject(c.arguments)) {
      assert n.done[|m.done|].id == c.id && (m.done != [] ==> n.done[|m.done| - 1] == m.done[|m.done| - 1]);
      AddCallSays(json, r.doc, c, m.done);
      C.TextOfSnoc(r.doc.items, C.CallItem(|r.doc.calls|));
      assert C.TextOf(r.doc.items) + "" == C.TextOf(r.doc.items);
      ReadChunk(json, s.(tools := s.tools - {index}), [CallPart(c)], "", None, r);
      AddOnePart(json, r.doc, CallPart(c));
      var b := if r.started then r else r.(started := true, id := s.responseID, model := s.model);
      t := b.(doc := G.AddPart(json, r.doc, CallPart(c)).value);
    }
  }

  lemma FinishRoundTrip(reason: StopReason, calls: seq<C.Call>)
    requires reason != Unknown
    ensures EncodeFinish(reason).Some? && EncodeFinish(reason).value != ""
    ensures var plain := G.FinishReason(EncodeFinish(reason).value);
            plain != Unknown && GeminiStop(reason, calls) == if calls != [] && plain == EndTurn then ToolUse else plain
  {
  }

  lemma TellStop(json: Json, s: State, m: C.Message, r: G.Reading, e: Event) returns (t: G.Reading)
    requires Tells(json, s, m, r) && e.ResponseStop? && e.reason != Unknown && C.Apply(m, e).Some?
    ensures Encode(json, s, e).ok && Tells(json, Encode(json, s, e).state, C.Apply(m, e).value, t)
    ensures t.usage == m.usage.(cacheWrite := 0)
  {
    hide G.Read, C.TextOf, Printed;
    C.ApplyWellFormed(m, e);
    assert forall i :: i !in s.tools;
    assert s.tools == map[];
    FinishRoundTrip(e.reason, m.done);
    PrintedLength(json, m.done);
    var u := G.UsageMetadata(s.usage.input, s.usage.output, s.usage.cacheRead, s.usage.reasoning);
    var finish := EncodeFinish(e.reason).value;
    ReadChunk(json, s.(stopped := true), [], finish, Some(u), r);
    assert G.AddParts(json, r.doc, []) == Some(r.doc);
    var b := if r.started then r else r.(started := true, id := s.responseID, model := s.model);
    t := b.(usage := G.Counts(u), stop := Some(GeminiStop(e.reason, m.done)));
  }

  lemma TellToolStart(json: Json, s: State, m: C.Message, r: G.Reading, e: Event)
    requires Tells(json, s, m, r) && e.ToolCallStart? && C.Apply(m, e).Some?
    ensures Encode(json, s, e).ok && Tells(json, Encode(json, s, e).state, C.Apply(m, e).value, r)
  {
    hide G.Read, C.TextOf, Printed;
    C.ApplyWellFormed(m, e);
    var n := C.Apply(m, e).value;
    forall i | i in m.blocks ensures n.items[n.blocks[i]] == m.items[m.blocks[i]] {
    }
  }

  lemma TellArguments(json: Json, s: State, m: C.Message, r: G.Reading, index: int, delta: ToolDelta)
    requires Tells(json, s, m, r) && m.OpenCall(index)
    ensures var e := ToolCallDelta(index, Some(delta));
            Encode(json, s, e).ok && Tells(json, Encode(json, s, e).state, C.Apply(m, e).value, r)
  {}

  /** The events that write nothing: starts, text blocks ending, usage. */
  lemma TellNothing(json: Json, s: State, m: C.Message, r: G.Reading, e: Event)
    requires Tells(json, s, m, r) && C.Apply(m, e).Some? && Expressible(e)
    requires e.ResponseStart? || e.ContentStart? || e.UsageReport? || (e.ContentStop? && !m.OpenCall(e.index))
    ensures Encode(json, s, e).ok && Tells(json, Encode(json, s, e).state, C.Apply(m, e).value, r)
  {
    hide G.Read, C.TextOf, Printed, WriteChunk, EncodeFinish, GeminiStop, OrEmptyObject;
    C.ApplyWellFormed(m, e);
    assert m.text + "" == m.text;
    var n := C.Apply(m, e).value;
    forall i | i in m.blocks ensures n.items[n.blocks[i]] == m.items[m.blocks[i]] {
    }
  }

  /** Every call completed so far has arguments that are a JSON object. */
  ghost predicate ObjectArguments(json: Json, calls: seq<C.Call>) {
    forall k :: 0 <= k < |calls| ==> json.isObject(OrEmptyObject(calls[k].arguments))
  }

  lemma DoneGrows(m: C.Message, e: Event)
    requires C.Apply(m, e).Some?
    ensures m.done <= C.Apply(m, e).value.done
    ensures !(e.ContentStop? && m.OpenCall(e.index)) ==> C.Apply(m, e).value.done == m.done
    ensures e.ContentStop? && m.OpenCall(e.index) ==>
              C.Apply(m, e).value.done == m.done + [m.calls[m.items[m.blocks[e.index]].call]]
  {
  }

  lemma TellStep(json: Json, s: State, m: C.Message, r: G.Reading, e: Event) returns (t: G.Reading)
    requires Tells(json, s, m, r) && C.Apply(m, e).Some? && Expressible(e)
    requires Distinct(C.Apply(m, e).value.done) && ObjectArguments(json, m.done)
    ensures Encode(json, s, e).ok <==> ObjectArguments(json, C.Apply(m, e).value.done)
    ensures Encode(json, s, e).ok ==> Tells(json, Encode(json, s, e).state, C.Apply(m, e).value, t)
  {
    hide Tells, Encode, C.Apply, Distinct;
    t := r;
    DoneGrows(m, e);
    match e
    case TextDelta(index, text) =>
      OnlyOpenText(m, e);
      t := TellText(json, s, m, r, index, text);
      TextAlwaysOk(json, s, e);
    case ToolCallStart(_, _) => TellToolStart(json, s, m, r, e);
    case ToolCallDelta(index, delta) =>
      OnlyOpenCall(m, e);
      TellArguments(json, s, m, r, index, delta.value);
    case ResponseStop(_, _) => t := TellStop(json, s, m, r, e);
    case ContentStop(index) =>
      if m.OpenCall(index) {
        t := TellCall(json, s, m, r, index);
        var n := C.Apply(m, e).value;
        assert n.done[|m.done|] == m.calls[m.items[m.blocks[index]].call];
      } else {
        TellNothing(json, s, m, r, e);
      }
    case ResponseStart(_, _) => TellNothing(json, s, m, r, e);
    case ContentStart(_, _) => TellNothing(json, s, m, r, e);
    case UsageReport(_) => TellNothing(json, s, m, r, e);
    case _ => OnlyPortable(m, e);
  }

  lemma OnlyOpenText(m: C.Message, e: Event)
    requires e.TextDelta? && C.Apply(m, e).Some?
    ensures m.OpenText(e.index)
  {
  }

  lemma OnlyOpenCall(m: C.Message, e: Event)
    requires e.ToolCallDelta? && C.Apply(m, e).Some?
    ensures m.OpenCall(e.index) && e.delta.Some?
  {
  }

  lemma TextAlwaysOk(json: Json, s: State, e: Event)
    requires e.TextDelta?
    ensures Encode(json, s, e).ok
  {
  }

  lemma OnlyPortable(m: C.Message, e: Event)
    requires C.Apply(m, e).Some?
    ensures !e.AudioDelta? && !e.Failure?
  {
  }

  lemma DistinctPrefix(before: seq<C.Call>, after: seq<C.Call>)
    requires before <= after && Distinct(after)
    ensures Distinct(before)
  {}

  lemma ObjectPrefix(json: Json, before: seq<C.Call>, after: seq<C.Call>)
    requires before <= after && ObjectArguments(json, after)
    ensures ObjectArguments(json, before)
  {}

  /** For every well-bracketed stream without reasoning whose calls can be told apart: the encoder
      accepts it exactly when every completed call has object arguments, and then its chunks read as
      the same text, the calls in the order they were completed, and the stop up to `STOP`. */
  lemma {:induction false} EncoderTells(json: Json, events: seq<Event>) returns (r: G.Reading)
    requires C.Run(events).Some? && forall k :: 0 <= k < |events| ==> Expressible(events[k])
    requires Distinct(C.Run(events).value.done)
    ensures EncodeAll(json, events).ok <==> ObjectArguments(json, C.Run(events).value.done)
    ensures EncodeAll(json, events).ok ==> Tells(json, EncodeAll(json, events).state, C.Run(events).value, r)
  {
    hide C.Apply, Tells, Encode, Expressible, Distinct, ObjectArguments;
    if events == [] {
      r := TellsNothing(json);
    } else {
      var before, last := events[..|events| - 1], events[|events| - 1];
      var m, n := C.Run(before).value, C.Run(events).value;
      DoneGrows(m, last);
      DistinctPrefix(m.done, n.done);
      r := EncoderTells(json, before);
      if ObjectArguments(json, m.done) {
        r := TellStep(json, EncodeAll(json, before).state, m, r, last);
      } else if ObjectArguments(json, n.done) {
        ObjectPrefix(json, m.done, n.done);
      }
    }
  }

  lemma TellsNothing(json: Json) returns (r: G.Reading)
    ensures Tells(json, INITIAL, C.EMPTY, r) && ObjectArguments(json, C.EMPTY.done)
  {
    r := G.UNREAD;
  }
}
