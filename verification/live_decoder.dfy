/** Gemini Live server messages turned into canonical events. */
module LiveDecoder {
  import opened Llm

  const PCM_24K := "audio/pcm;rate=24000"

  datatype LiveCall = LiveCall(id: string, name: string, args: string)

  datatype Chunk = Chunk(mediaType: string, data: string)

  datatype Content = Content(
    text: seq<string>, audio: seq<Chunk>, generationComplete: bool, turnComplete: bool, interrupted: bool, metadata: bool)

  /** A message has at most one type; calls are `None` when their JSON could not be read. */
  datatype Body =
    | NoBody
    | SetupComplete
    | ServerContent(content: Content)
    | ToolCall(calls: Option<seq<LiveCall>>)
    | Cancellation
    | GoAway
    | Resumption

  /** The flags say that fields were left over which the model does not know. */
  datatype Message = Message(body: Body, usage: Option<Usage>, usageMetadata: bool, metadata: bool)

  /** Which texts are JSON and which are base64. */
  datatype Formats = Formats(isJson: string -> bool, isBase64: string -> bool)

  datatype Kind = NoKind | TextKind | AudioKind | ToolKind

  /** The decoder's fields, and the events of the message so far. */
  datatype Draft = Draft(responseOpen: bool, contentOpen: bool, kind: Kind, events: seq<Event>)

  const INITIAL := Draft(false, false, NoKind, [])

  function Push(d: Draft, e: Event): Draft {
    d.(events := d.events + [e])
  }

  function OpenResponse(model: string, d: Draft): Draft {
    if d.responseOpen then d else Push(d, ResponseStart("", model)).(responseOpen := true)
  }

  function OpenContent(d: Draft, kind: Kind): Draft {
    if d.contentOpen then d
    else
      Push(d, ContentStart(0, if kind == TextKind then TextBlock("") else AudioBlock(PCM_24K))).(
        contentOpen := true, kind := kind)
  }

  function PushTexts(d: Draft, texts: seq<string>): Draft {
    if texts == [] then d else Push(PushTexts(d, texts[..|texts| - 1]), TextDelta(0, texts[|texts| - 1]))
  }

  function PushAudio(f: Formats, d: Draft, audio: seq<Chunk>): Option<Draft> {
    if audio == [] then Some(d)
    else
      match PushAudio(f, d, audio[..|audio| - 1])
      case None => None
      case Some(t) =>
        var last := audio[|audio| - 1];
        if last.mediaType != PCM_24K || !f.isBase64(last.data) then None
        else Some(Push(t, AudioDelta(0, last.data, last.mediaType)))
  }

  predicate Speaks(c: Content) {
    c.text != [] || c.audio != [] || c.generationComplete || c.turnComplete || c.interrupted
  }

  function Mixes(d: Draft, kind: Kind): bool {
    d.contentOpen && d.kind != kind
  }

  function Speak(f: Formats, model: string, d: Draft, c: Content): Option<Draft> {
    if c.text != [] && c.audio != [] then None
    else if !Speaks(c) then Some(d)
    else
      var t := OpenResponse(model, d);
      if c.text != [] then if Mixes(t, TextKind) then None else Some(PushTexts(OpenContent(t, TextKind), c.text))
      else if c.audio != [] then if Mixes(t, AudioKind) then None else PushAudio(f, OpenContent(t, AudioKind), c.audio)
      else Some(t)
  }

  function PushCalls(f: Formats, d: Draft, calls: seq<LiveCall>): Option<Draft> {
    if calls == [] then Some(d)
    else
      var index := |calls| - 1;
      match PushCalls(f, d, calls[..index])
      case None => None
      case Some(t) =>
        var call := calls[index];
        var args := OrEmptyObject(call.args);
        if call.id == "" || call.name == "" || !f.isJson(args) then None
        else
          var started := Push(t, ToolCallStart(index, ToolCallBlock(call.id, call.name, "{}")));
          Some(Push(Push(started, ToolCallDelta(index, Some(ToolDelta(call.id, call.name, args)))), ContentStop(index)))
  }

  function CallTools(f: Formats, model: string, d: Draft, calls: Option<seq<LiveCall>>): Option<Draft> {
    if d.contentOpen || calls.None? || calls.value == [] then None
    else
      match PushCalls(f, OpenResponse(model, d), calls.value)
      case None => None
      case Some(t) => Some(Push(t, ResponseStop(ToolUse, "")).(responseOpen := false))
  }

  function Count(model: string, d: Draft, usage: Option<Usage>): Draft {
    if usage.None? then d else Push(OpenResponse(model, d), UsageReport(usage))
  }

  function EndTurn(d: Draft, interrupted: bool): Draft {
    var t := if d.contentOpen then Push(d, ContentStop(0)).(contentOpen := false, kind := NoKind) else d;
    Push(t, ResponseStop(if interrupted then Unknown else StopReason.EndTurn, "")).(responseOpen := false)
  }

  predicate Ends(m: Message) {
    m.body.ServerContent? && (m.body.content.turnComplete || m.body.content.interrupted)
  }

  predicate Interrupts(m: Message) {
    m.body.ServerContent? && m.body.content.interrupted
  }

  function Convert(f: Formats, model: string, d: Draft, m: Message): Option<Draft> {
    if m.metadata || m.body.Cancellation? then None
    else if (m.body.GoAway? || m.body.Resumption? || m.body.SetupComplete?) && m.usage.None? then Some(d)
    else if m.body.ServerContent? && m.body.content.metadata then None
    else if m.usage.Some? && m.usageMetadata then None
    else if m.body.NoBody? && m.usage.None? then None
    else
      var said :=
        match m.body
        case ServerContent(c) => Speak(f, model, d, c)
        case ToolCall(calls) => CallTools(f, model, d, calls)
        case _ => Some(d);
      match said
      case None => None
      case Some(t) =>
        var u := Count(model, t, m.usage);
        Some(if Ends(m) then EndTurn(u, m.body.content.interrupted) else u)
  }

  /** The decoder object. A failed message ends the session, so what it leaves behind is not specified. */
  class StreamDecoder {
    const formats: Formats
    const model: string
    var responseOpen: bool
    var contentOpen: bool
    var contentKind: Kind

    constructor (formats: Formats, model: string)
      ensures this.formats == formats && this.model == model && Abs([]) == INITIAL
    {
      this.formats, this.model := formats, model;
      responseOpen, contentOpen, contentKind := false, false, NoKind;
    }

    function Abs(events: seq<Event>): Draft
      reads this
    {
      Draft(responseOpen, contentOpen, contentKind, events)
    }

    method Decode(m: Message) returns (ok: bool, events: seq<Event>)
      modifies this
      ensures ok == Convert(formats, model, old(Abs([])), m).Some?
      ensures ok ==> Convert(formats, model, old(Abs([])), m) == Some(Abs(events))
    {
      events := [];
      if m.metadata || m.body.Cancellation? { return false, []; }
      if (m.body.GoAway? || m.body.Resumption? || m.body.SetupComplete?) && m.usage.None? { return true, []; }
      if m.body.ServerContent? && m.body.content.metadata { return false, []; }
      if m.usage.Some? && m.usageMetadata { return false, []; }
      if m.body.ServerContent? {
        ok, events := DecodeContent(m.body.content);
        if !ok { return false, []; }
      } else if m.body.ToolCall? {
        if contentOpen { return false, []; }
        ok, events := DecodeToolCalls(m.body.calls);
        if !ok { return false, []; }
      }
      if m.usage.Some? {
        if !responseOpen {
          events := events + [ResponseStart("", model)];
          responseOpen := true;
        }
        events := events + [UsageReport(m.usage)];
      }
      if m.body.ServerContent? && (m.body.content.turnComplete || m.body.content.interrupted) {
        if contentOpen {
          events := events + [ContentStop(0)];
          contentOpen := false;
          contentKind := NoKind;
        }
        events := events + [ResponseStop(if m.body.content.interrupted then Unknown else StopReason.EndTurn, "")];
        responseOpen := false;
      }
      if m.body.NoBody? && m.usage.None? { return false, []; }
      return true, events;
    }

    method DecodeContent(c: Content) returns (ok: bool, events: seq<Event>)
      modifies this
      ensures ok == Speak(formats, model, old(Abs([])), c).Some?
      ensures ok ==> Speak(formats, model, old(Abs([])), c) == Some(Abs(events))
    {
      events := [];
      if c.text != [] && c.audio != [] { return false, []; }
      if c.text == [] && c.audio == [] && !c.generationComplete && !c.turnComplete && !c.interrupted { return true, []; }
      if !responseOpen {
        events := events + [ResponseStart("", model)];
        responseOpen := true;
      }
      if c.text != [] {
        if contentOpen && contentKind != TextKind { return false, []; }
        if !contentOpen {
          events := events + [ContentStart(0, TextBlock(""))];
          contentOpen := true;
          contentKind := TextKind;
        }
        ghost var begun := Abs(events);
        for k := 0 to |c.text|
          invariant Abs(events) == PushTexts(begun, c.text[..k])
        {
          assert c.text[..k + 1][..k] == c.text[..k];
          events := events + [TextDelta(0, c.text[k])];
        }
        assert c.text[..|c.text|] == c.text;
      }
      if c.audio != [] {
        if contentOpen && contentKind != AudioKind { return false, []; }
        if !contentOpen {
          events := events + [ContentStart(0, AudioBlock(PCM_24K))];
          contentOpen := true;
          contentKind := AudioKind;
        }
        ghost var begun := Abs(events);
        for k := 0 to |c.audio|
          invariant Some(Abs(events)) == PushAudio(formats, begun, c.audio[..k])
        {
          assert c.audio[..k + 1][..k] == c.audio[..k];
          if c.audio[k].mediaType != PCM_24K || !formats.isBase64(c.audio[k].data) {
            AudioFailureStands(formats, begun, c.audio, k + 1);
            return false, [];
          }
          events := events + [AudioDelta(0, c.audio[k].data, c.audio[k].mediaType)];
        }
        assert c.audio[..|c.audio|] == c.audio;
      }
      return true, events;
    }

    method DecodeToolCalls(calls: Option<seq<LiveCall>>) returns (ok: bool, events: seq<Event>)
      requires !contentOpen
      modifies this
      ensures ok == CallTools(formats, model, old(Abs([])), calls).Some?
      ensures ok ==> CallTools(formats, model, old(Abs([])), calls) == Some(Abs(events))
    {
      events := [];
      if calls.None? || calls.value == [] { return false, []; }
      var all := calls.value;
      if !responseOpen {
        events := events + [ResponseStart("", model)];
        responseOpen := true;
      }
      ghost var begun := Abs(events);
      for k := 0 to |all|
        invariant Some(Abs(events)) == PushCalls(formats, begun, all[..k])
      {
        assert all[..k + 1][..k] == all[..k];
        var call := all[k];
        var args := if call.args == "" then "{}" else call.args;
        if call.id == "" || call.name == "" || !formats.isJson(args) {
          CallFailureStands(formats, begun, all, k + 1);
          return false, [];
        }
        events := events + [ToolCallStart(k, ToolCallBlock(call.id, call.name, "{}"))]
                  + [ToolCallDelta(k, Some(ToolDelta(call.id, call.name, args)))] + [ContentStop(k)];
      }
      assert all[..|all|] == all;
      events := events + [ResponseStop(ToolUse, "")];
      responseOpen := false;
      return true, events;
    }
  }

  lemma {:induction false} AudioFailureStands(f: Formats, d: Draft, audio: seq<Chunk>, k: nat)
    requires k <= |audio| && PushAudio(f, d, audio[..k]).None?
    ensures PushAudio(f, d, audio).None?
  {
    if k < |audio| {
      assert audio[..|audio| - 1][..k] == audio[..k];
      AudioFailureStands(f, d, audio[..|audio| - 1], k);
    } else {
      assert audio[..k] == audio;
    }
  }

  lemma {:induction false} CallFailureStands(f: Formats, d: Draft, calls: seq<LiveCall>, k: nat)
    requires k <= |calls| && PushCalls(f, d, calls[..k]).None?
    ensures PushCalls(f, d, calls).None?
  {
    if k < |calls| {
      assert calls[..|calls| - 1][..k] == calls[..k];
      CallFailureStands(f, d, calls[..|calls| - 1], k);
    } else {
      assert calls[..k] == calls;
    }
  }

  // ---------------------------------------------------------------- which messages are accepted

  lemma {:induction false} AudioAccepted(f: Formats, d: Draft, audio: seq<Chunk>)
    ensures PushAudio(f, d, audio).Some? <==>
            forall k :: 0 <= k < |audio| ==> audio[k].mediaType == "audio/pcm;rate=24000" && f.isBase64(audio[k].data)
    ensures PushAudio(f, d, audio).Some? ==>
              var t := PushAudio(f, d, audio).value; t == d.(events := t.events)
  {
    if audio != [] {
      var init := audio[..|audio| - 1];
      AudioAccepted(f, d, init);
      assert forall k :: 0 <= k < |init| ==> audio[k] == init[k];
    }
  }

  lemma {:induction false} CallsAccepted(f: Formats, d: Draft, calls: seq<LiveCall>)
    ensures PushCalls(f, d, calls).Some? <==>
            forall k :: 0 <= k < |calls| ==> calls[k].id != "" && calls[k].name != "" && f.isJson(OrEmptyObject(calls[k].args))
    ensures PushCalls(f, d, calls).Some? ==>
              var t := PushCalls(f, d, calls).value; t == d.(events := t.events)
  {
    if calls != [] {
      var init := calls[..|calls| - 1];
      CallsAccepted(f, d, init);
      assert forall k :: 0 <= k < |init| ==> calls[k] == init[k];
    }
  }

  lemma {:induction false} TextsAccepted(d: Draft, texts: seq<string>)
    ensures var t := PushTexts(d, texts); t == d.(events := t.events)
  {
    if texts != [] {
      TextsAccepted(d, texts[..|texts| - 1]);
    }
  }

  predicate SpeakableContent(f: Formats, d: Draft, c: Content) {
    && !c.metadata && (c.text == [] || c.audio == [])
    && (c.text != [] ==> !d.contentOpen || d.kind == TextKind)
    && (c.audio != [] ==>
          && (!d.contentOpen || d.kind == AudioKind)
          && forall k :: 0 <= k < |c.audio| ==>
               c.audio[k].mediaType == "audio/pcm;rate=24000" && f.isBase64(c.audio[k].data))
  }

  predicate CallableTools(f: Formats, d: Draft, calls: Option<seq<LiveCall>>) {
    && !d.contentOpen && calls.Some? && calls.value != []
    && forall k :: 0 <= k < |calls.value| ==>
         calls.value[k].id != "" && calls.value[k].name != "" && f.isJson(OrEmptyObject(calls.value[k].args))
  }

  /** In every state: a message is accepted exactly if the model knows all of it, it brings something, and what
      it brings fits the content that is open. */
  lemma AcceptsExactly(f: Formats, model: string, d: Draft, m: Message)
    ensures Convert(f, model, d, m).Some? <==>
            && !m.metadata && !m.body.Cancellation? && (m.usage.Some? ==> !m.usageMetadata)
            && (m.body.NoBody? ==> m.usage.Some?)
            && (m.body.ServerContent? ==> SpeakableContent(f, d, m.body.content))
            && (m.body.ToolCall? ==> CallableTools(f, d, m.body.calls))
  {
    hide PushAudio, PushCalls, PushTexts;
    match m.body
    case ServerContent(c) =>
      AudioAccepted(f, OpenContent(OpenResponse(model, d), AudioKind), c.audio);
    case ToolCall(calls) =>
      if calls.Some? {
        CallsAccepted(f, OpenResponse(model, d), calls.value);
      }
    case _ =>
  }

  /** What is open afterwards, and how a turn ends. */
  lemma TurnsEnd(f: Formats, model: string, d: Draft, m: Message)
    requires Convert(f, model, d, m).Some?
    ensures var t := Convert(f, model, d, m).value;
            && (m.body.ServerContent? && (m.body.content.turnComplete || m.body.content.interrupted) ==>
                  && !t.responseOpen && !t.contentOpen && t.events != []
                  && t.events[|t.events| - 1] == ResponseStop(if m.body.content.interrupted then Unknown else StopReason.EndTurn, ""))
            && (m.body.ServerContent? && !(m.body.content.turnComplete || m.body.content.interrupted) ==>
                  (t.contentOpen <==> d.contentOpen || m.body.content.text != [] || m.body.content.audio != []))
            && (!m.body.ServerContent? ==> t.contentOpen == d.contentOpen)
            && (m.body.ToolCall? ==> ResponseStop(ToolUse, "") in t.events)
            && (m.body.ServerContent? && !(m.body.content.turnComplete || m.body.content.interrupted) ==>
                  m.body.content.text != [] || m.body.content.audio != [] || m.body.content.generationComplete ==>
                    t.responseOpen)
  {
    hide PushAudio, PushCalls, PushTexts;
    match m.body
    case ServerContent(c) =>
      AudioAccepted(f, OpenContent(OpenResponse(model, d), AudioKind), c.audio);
      TextsAccepted(OpenContent(OpenResponse(model, d), TextKind), c.text);
    case ToolCall(calls) =>
      if calls.Some? {
        CallsAccepted(f, OpenResponse(model, d), calls.value);
        var t := PushCalls(f, OpenResponse(model, d), calls.value);
        if t.Some? {
          assert (t.value.events + [ResponseStop(ToolUse, "")])[|t.value.events|] == ResponseStop(ToolUse, "");
        }
      }
    case _ =>
  }
}
